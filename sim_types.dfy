/** The records of the simulation store: projects, scenarios and the choices
    inside a scenario, reduced to the fields the store's logic reads or writes. */
module SimTypes {

  /** An optional value: `undefined` / `null` in the store's TypeScript. */
  datatype Option<+T> = None | Some(value: T)

  /** The threat-level tag of a project. */
  datatype Threat = Low | Medium | High | Critical

  /** A project showcase, identified by its id. */
  datatype Project = Project(id: string, threat: Threat)

  /** One selectable option of a scenario; `unlocks` names a project id. */
  datatype Choice = Choice(id: string, unlocks: Option<string>)

  /** A mission. `completed` and `unlockedProject` are the two fields the
      store rewrites in place when the scenario is completed. */
  datatype Scenario = Scenario(
    id: string,
    completed: bool,
    choices: seq<Choice>,
    unlockedProject: Option<string>)

  /** JavaScript truthiness of an optional string: absent and the empty
      string are both falsy. */
  predicate Truthy(p: Option<string>) {
    p.Some? && p.value != ""
  }

  /** `xs` holds no element twice. */
  predicate Distinct<T(==)>(xs: seq<T>) {
    forall i, j :: 0 <= i < j < |xs| ==> xs[i] != xs[j]
  }

  function ScenarioIds(scenarios: seq<Scenario>): seq<string> {
    seq(|scenarios|, i requires 0 <= i < |scenarios| => scenarios[i].id)
  }

  function ProjectIds(projects: seq<Project>): seq<string> {
    seq(|projects|, i requires 0 <= i < |projects| => projects[i].id)
  }

  function ChoiceIds(choices: seq<Choice>): seq<string> {
    seq(|choices|, i requires 0 <= i < |choices| => choices[i].id)
  }
}
