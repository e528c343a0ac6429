/** The values `completeScenario` computes before it writes them back: the
    scenario list mapped to mark one scenario done, the conditional appends
    to the completed and unlocked lists, and what the project view shows. */
module Progress {
  import opened SimTypes

  /** Number of distinct completed scenarios at which the mission is complete. */
  const MissionThreshold: nat := 3

  /** The new `scenarios`: every scenario whose id is `scenarioId` becomes
      completed and records `projectId` (stored exactly as given, so an empty
      string is kept); every other scenario is left as it is. */
  function MarkCompleted(scenarios: seq<Scenario>, scenarioId: string, projectId: Option<string>): (r: seq<Scenario>)
    ensures |r| == |scenarios|
    ensures forall i :: 0 <= i < |r| ==>
              r[i].id == scenarios[i].id && r[i].choices == scenarios[i].choices
    ensures forall i :: 0 <= i < |r| && scenarios[i].id == scenarioId ==>
              r[i].completed && r[i].unlockedProject == projectId
    ensures forall i :: 0 <= i < |r| && scenarios[i].id != scenarioId ==> r[i] == scenarios[i]
  {
    if scenarios == [] then []
    else
      var sc := scenarios[0];
      var head := if sc.id == scenarioId then sc.(completed := true, unlockedProject := projectId) else sc;
      [head] + MarkCompleted(scenarios[1..], scenarioId, projectId)
  }

  /** The list after appending `x` only when it is absent: it keeps the old
      list as a prefix, gains exactly `x`, and stays duplicate-free. */
  function AppendIfAbsent(xs: seq<string>, x: string): (r: seq<string>)
    ensures xs <= r && x in r
    ensures forall y :: y in r <==> y in xs || y == x
    ensures r == xs <==> x in xs
    ensures |r| <= |xs| + 1
    ensures Distinct(xs) ==> Distinct(r)
  {
    if x in xs then xs else xs + [x]
  }

  /** The new `unlockedProjects`: a truthy `projectId` not yet unlocked is
      appended; otherwise the list is unchanged. */
  function UnlockProject(unlocked: seq<string>, projectId: Option<string>): (r: seq<string>)
    ensures unlocked <= r && |r| <= |unlocked| + 1
    ensures Truthy(projectId) ==> projectId.value in r
    ensures !Truthy(projectId) ==> r == unlocked
    ensures r == unlocked <==> !Truthy(projectId) || projectId.value in unlocked
    ensures forall p :: p in r ==> p in unlocked || (Truthy(projectId) && p == projectId.value)
    ensures Distinct(unlocked) ==> Distinct(r)
  {
    if Truthy(projectId) then AppendIfAbsent(unlocked, projectId.value) else unlocked
  }

  /** The new `showProject`: `projectId || null`. */
  function ShownProject(projectId: Option<string>): (r: Option<string>)
    ensures r.Some? <==> Truthy(projectId)
    ensures r.Some? ==> r == projectId
  {
    if Truthy(projectId) then projectId else None
  }

  /** Marking a scenario that is not in the list changes nothing. */
  lemma MarkCompletedUnknown(scenarios: seq<Scenario>, scenarioId: string, projectId: Option<string>)
    requires scenarioId !in ScenarioIds(scenarios)
    ensures MarkCompleted(scenarios, scenarioId, projectId) == scenarios
  {
    var r := MarkCompleted(scenarios, scenarioId, projectId);
    forall i | 0 <= i < |r| ensures r[i] == scenarios[i] {
      assert ScenarioIds(scenarios)[i] == scenarios[i].id;
    }
  }

  /** Marking keeps the scenario ids, in order. */
  lemma MarkCompletedKeepsIds(scenarios: seq<Scenario>, scenarioId: string, projectId: Option<string>)
    ensures ScenarioIds(MarkCompleted(scenarios, scenarioId, projectId)) == ScenarioIds(scenarios)
  {
  }

  /** Marking the same scenario with the same project twice is marking it once. */
  lemma MarkCompletedIdempotent(scenarios: seq<Scenario>, scenarioId: string, projectId: Option<string>)
    ensures var once := MarkCompleted(scenarios, scenarioId, projectId);
            MarkCompleted(once, scenarioId, projectId) == once
  {
  }
}
