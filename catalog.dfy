/** The template content catalog that `initializeData` loads: four projects
    and four scenarios of three choices each. */
module Catalog {
  import opened SimTypes

  const TemplateProjects: seq<Project> := [
    Project("secure-auth-system", High),
    Project("network-monitor", Critical),
    Project("social-engineering-toolkit", Medium),
    Project("mobile-security-scanner", High)
  ]

  const TemplateScenarios: seq<Scenario> := [
    Scenario("social-engineering", false, [
      Choice("generic-phishing", None),
      Choice("spear-phishing", Some("social-engineering-toolkit")),
      Choice("advanced-pretext", Some("social-engineering-toolkit"))
    ], None),
    Scenario("technical-exploitation", false, [
      Choice("automated-scan", None),
      Choice("manual-testing", Some("secure-auth-system")),
      Choice("zero-day-research", Some("secure-auth-system"))
    ], None),
    Scenario("network-infiltration", false, [
      Choice("passive-recon", None),
      Choice("active-scanning", Some("network-monitor")),
      Choice("advanced-persistence", Some("network-monitor"))
    ], None),
    Scenario("mobile-security", false, [
      Choice("basic-app-test", None),
      Choice("comprehensive-analysis", Some("mobile-security-scanner")),
      Choice("custom-exploit-dev", Some("mobile-security-scanner"))
    ], None)
  ]

  /** Every choice of every scenario unlocks nothing or a catalog project. */
  predicate UnlocksResolve(scenarios: seq<Scenario>, projects: seq<Project>) {
    forall i, k :: 0 <= i < |scenarios| && 0 <= k < |scenarios[i].choices| ==>
      var u := scenarios[i].choices[k].unlocks;
      u.None? || u.value in ProjectIds(projects)
  }

  /** The template catalog is well formed: scenario ids and project ids are
      distinct, choice ids are distinct within each scenario, every unlock
      names a template project, and every scenario starts not completed
      with no unlocked project. */
  lemma TemplateCatalogWellFormed()
    ensures |TemplateScenarios| == 4 && |TemplateProjects| == 4
    ensures Distinct(ScenarioIds(TemplateScenarios))
    ensures Distinct(ProjectIds(TemplateProjects))
    ensures forall i :: 0 <= i < |TemplateScenarios| ==> Distinct(ChoiceIds(TemplateScenarios[i].choices))
    ensures UnlocksResolve(TemplateScenarios, TemplateProjects)
    ensures forall i :: 0 <= i < |TemplateScenarios| ==>
              !TemplateScenarios[i].completed && TemplateScenarios[i].unlockedProject.None?
  {
    var ps := ProjectIds(TemplateProjects);
    assert ps == ["secure-auth-system", "network-monitor", "social-engineering-toolkit", "mobile-security-scanner"];
  }
}
