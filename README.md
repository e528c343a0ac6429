# Simulation progress store — a Dafny model

This project models the progress store of an interactive cybersecurity
portfolio. The store holds a content catalog (scenarios, each with choices
that may unlock a project, and the projects themselves) and the session
progress. The progress fields are the current scenario, the completed scenarios, the unlocked
projects, the project on show and the mission-complete flag. Five actions
change it: `setCurrentScenario`, `completeScenario`, `setShowProject`,
`initializeData` and `resetSimulation`.

Layout:

- `sim_types.dfy` (module `SimTypes`): the `Project`, `Scenario` and `Choice`
  records, an `Option` for `undefined`/`null`, JavaScript truthiness of an
  optional string, and `Distinct`.
- `catalog.dfy` (module `Catalog`): the template catalog of four projects and
  four scenarios, and a lemma that it is well formed.
- `progress.dfy` (module `Progress`): the values `completeScenario` computes.
  These are the mapped scenario list, the conditional appends to the completed
  and unlocked lists, and the project to show. Each is a function on sequences
  with its properties.
- `sim_state.dfy` (module `SimState`): the seven store fields as a `State`
  value and the five actions as transitions on it. An `Action` trace with
  `Run` gives the lemmas that hold across any sequence of calls.
- `sim_store.dfy` (module `SimStore`): the store as a class whose fields the
  methods overwrite. Each method's postcondition says its new state is the
  matching transition applied to its old state. Each method also keeps the
  invariant `Valid()`.

The model follows the code as written, including these behaviours, which a
reader might expect to be otherwise:

- `completeScenario` does not reject a scenario id that is not in the
  catalog. It still appends the id to the completed list and leaves the
  scenario records alone (`UnknownScenarioStillCounted`).
- `resetSimulation` clears the progress fields only. The `completed` and
  `unlockedProject` fields inside the scenario records survive a reset
  (`ResetLeavesStaleFlag`).
- `initializeData` does not check whether the catalog is already loaded. It
  always replaces both lists with the template. That also discards any
  `completed` flags set on the previous scenario records. It is still
  idempotent, and it leaves every progress field unchanged.
- `resetSimulation` is absent from the store's declared interface type but is
  defined and called, so it is modelled as the fifth action.

The optional project id of `completeScenario` is tested for JavaScript
truthiness. `None` and `Some("")` both count as absent when unlocking and
when choosing the project to show. The scenario record, however, stores the
id exactly as given (`EmptyProjectIdIsFalsy`).

## Model

| member | source | states |
|---|---|---|
| `Progress.MarkCompleted` | src/store/useSimStore.ts:258-262 | length and order kept; ids and choices kept; a scenario whose id matches becomes completed and records the project id; every other scenario is unchanged |
| `Progress.AppendIfAbsent` | src/store/useSimStore.ts:268-270 | the old list stays a prefix; the new list holds exactly the old elements plus the id; it is unchanged iff the id was already present; it grows by at most one; a duplicate-free list stays duplicate-free |
| `Progress.UnlockProject` | src/store/useSimStore.ts:264-266 | a truthy project id ends up in the list; the list is unchanged iff the id is falsy or already present; nothing else is added; the list only grows, by at most one, and stays duplicate-free |
| `Progress.ShownProject` | src/store/useSimStore.ts:280 | a project is shown iff the project id is truthy, and then it is that id |
| `Progress.MarkCompletedUnknown` | src/store/useSimStore.ts:258-262 | marking an id that no scenario has leaves the list unchanged |
| `Progress.MarkCompletedKeepsIds` | src/store/useSimStore.ts:258-262 | marking keeps the sequence of scenario ids |
| `Progress.MarkCompletedIdempotent` | src/store/useSimStore.ts:258-262 | marking twice with the same arguments equals marking once |
| `Catalog.TemplateCatalogWellFormed` | src/store/useSimStore.ts:49-241 | four scenarios and four projects; scenario ids distinct; project ids distinct; choice ids distinct within each scenario; every `unlocks` is absent or a template project id; every scenario starts not completed with no unlocked project |
| `SimState.SetCurrentScenario` | src/store/useSimStore.ts:254 | `currentScenario` becomes the given id, unchecked; no other field changes |
| `SimState.CompleteScenario` | src/store/useSimStore.ts:256-282 | whole new state: scenarios marked, unlock and completion appends, `missionComplete` iff at least three completed, `currentScenario` null, `showProject` the truthy project id or null, projects untouched |
| `SimState.SetShowProject` | src/store/useSimStore.ts:284 | `showProject` becomes the given id, unchecked; no other field changes |
| `SimState.InitializeData` | src/store/useSimStore.ts:286-289 | scenarios and projects become the template catalog; no progress field changes |
| `SimState.ResetSimulation` | src/store/useSimStore.ts:291-297 | every progress field returns to its initial value; scenarios and projects are kept as they were |
| `SimState.StepPreservesInv` | src/store/useSimStore.ts:254-297 | each of the five actions keeps the invariant: completed and unlocked lists duplicate-free, no empty unlocked id, `missionComplete` iff at least three completed |
| `SimState.RunPreservesInv` | src/store/useSimStore.ts:254-297 | any sequence of actions keeps that invariant |
| `SimState.ReachableInv` | src/store/useSimStore.ts:246-297 | the invariant holds in every state reachable from the initial store |
| `SimState.GrowsWithoutReset` | src/store/useSimStore.ts:264-270 | in a sequence of actions without a reset, the completed and unlocked lists keep their old contents as a prefix |
| `SimState.CatalogStable` | src/store/useSimStore.ts:256-289 | once the template catalog is loaded, no action changes the projects or the sequence of scenario ids |
| `SimState.CompleteScenarioIdempotent` | src/store/useSimStore.ts:256-282 | completing the same scenario with the same project twice gives the same state as once |
| `SimState.InitializeDataIdempotent` | src/store/useSimStore.ts:286-289 | loading the catalog twice gives the same state as once |
| `SimState.UnknownScenarioStillCounted` | src/store/useSimStore.ts:258-270 | an id outside the catalog leaves the scenario records unchanged but is appended to the completed list |
| `SimState.EmptyProjectIdIsFalsy` | src/store/useSimStore.ts:258-280 | with an empty project id nothing is unlocked or shown, but the scenario record stores the empty string |
| `SimState.ResetLeavesStaleFlag` | src/store/useSimStore.ts:256-297 | after load, one completion and a reset, progress is empty while the scenario record still says completed with its project |
| `SimState.FirstCompletionExample` | src/store/useSimStore.ts:256-282 | from empty progress, completing `social-engineering` with its toolkit gives one completed scenario, one unlocked and shown project, and no mission |
| `SimState.NoUnlockExample` | src/store/useSimStore.ts:264-280 | completing a new scenario with no project adds one completion, unlocks nothing and shows nothing |
| `SimState.ThreeCompletionsExample` | src/store/useSimStore.ts:268-272 | from empty progress, three distinct completions give those three ids in order, the two unlocked projects, and `missionComplete` |
| `SimStore.Store.constructor` | src/store/useSimStore.ts:246-252 | the new store equals the initial state and satisfies `Valid()` |
| `SimStore.Store.SetCurrentScenario` | src/store/useSimStore.ts:254 | the new fields are `SimState.SetCurrentScenario` of the old ones; `Valid()` is kept |
| `SimStore.Store.CompleteScenario` | src/store/useSimStore.ts:256-282 | the new fields are `SimState.CompleteScenario` of the old ones; `missionComplete` iff at least three completed; `Valid()` is kept |
| `SimStore.Store.SetShowProject` | src/store/useSimStore.ts:284 | the new fields are `SimState.SetShowProject` of the old ones; `Valid()` is kept |
| `SimStore.Store.InitializeData` | src/store/useSimStore.ts:286-289 | the new fields are `SimState.InitializeData` of the old ones; `Valid()` is kept |
| `SimStore.Store.ResetSimulation` | src/store/useSimStore.ts:291-297 | the new fields are `SimState.ResetSimulation` of the old ones; `Valid()` holds afterwards from any state |

## Left out

- Persistence: the `persist` middleware and its local-storage record named
  `cybersec-sim-storage` (src/store/useSimStore.ts:243-244, 299-301) are a
  foreign library and browser I/O. A store restored from storage is not
  modelled, so `ReachableInv` covers only states reached from the initial
  store.
- Catalog prose: titles, descriptions, narrative text, technology stacks,
  URLs, icons, learning points and choice texts are omitted from the
  records. The store's logic never reads them.
- Catalog membership of ids: the store never checks that `currentScenario`,
  `showProject` or an unlocked project id names a catalog entry. No such
  invariant is claimed.
- The rule that a completed scenario cannot be re-entered: only the
  presentation layer enforces it, by disabling the scenario button. It is
  not a property of the store and is not modelled.
- Rendering, timers and randomness: src/App.tsx and the components under
  src/components/ are not part of this model. That includes the 30-second
  auto-reset, the 3-second choice delay, the clock, the intro sequence and
  the random background. tailwind.config.js is styling only and is also
  not part of this model.
- The zustand `set`/`get` plumbing: each action's field updates are modelled
  as one atomic assignment of the new field values.
