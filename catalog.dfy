/**
 * The static template catalog of `rpk`: five families, each an ordered map
 * from template name to template record, the robots on offer, and the
 * facts about the catalog the generator depends on (every dependency
 * resolves, dependencies form an acyclic graph).
 *
 * Python dictionaries keep insertion order, and the menus and the
 * generator rely on it, so each dictionary is an association list here.
 */
module Catalog {
  import opened Py

  /** One entry of a dependency list: `{template: {"id": id, "name": name}}`. */
  datatype DepDecl = DepDecl(template: string, id: string, name: string)

  /**
   * A template record. `deps[k]` is the dependency list the record declares
   * under the key `DependencyKinds[k]` (`"task_templates"`, ...); a list the
   * record does not declare is empty, which the generator treats alike.
   */
  datatype Template = Template(
    tplPaths: seq<string>,
    shortDesc: string,
    postInstallHelp: string,
    deps: seq<seq<DepDecl>>)

  datatype Family = Family(src: seq<(string, Template)>, name: string, help: string)

  /** Keys of an association list, in declaration order (`list(d.keys())`). */
  function Keys<V>(kvs: seq<(string, V)>): (ks: seq<string>)
    ensures |ks| == |kvs|
    ensures forall i :: 0 <= i < |kvs| ==> ks[i] == kvs[i].0
  {
    if kvs == [] then [] else [kvs[0].0] + Keys(kvs[1..])
  }

  /** `d[k]` on a dictionary; `None` is the `KeyError`. */
  function Lookup<V>(kvs: seq<(string, V)>, k: string): Option<V>
  {
    if kvs == [] then None
    else if kvs[0].0 == k then Some(kvs[0].1)
    else Lookup(kvs[1..], k)
  }

  lemma {:induction false} LookupFound<V>(kvs: seq<(string, V)>, k: string)
    ensures Lookup(kvs, k).Some? <==> k in Keys(kvs)
    ensures Lookup(kvs, k).Some? ==> (k, Lookup(kvs, k).value) in kvs
  {
    if kvs != [] {
      LookupFound(kvs[1..], k);
    }
  }

  /** In a dictionary with unique keys, the i-th entry is what its key looks up. */
  lemma {:induction false} LookupAt<V>(kvs: seq<(string, V)>, i: nat)
    requires UniqueKeys(kvs) && i < |kvs|
    ensures Lookup(kvs, kvs[i].0) == Some(kvs[i].1)
  {
    if i > 0 {
      assert Keys(kvs)[0] != Keys(kvs)[i];
      assert kvs[1..][i - 1] == kvs[i];
      LookupAt(kvs[1..], i - 1);
    }
  }

  predicate UniqueKeys<V>(kvs: seq<(string, V)>)
  {
    forall i, j :: 0 <= i < j < |kvs| ==> Keys(kvs)[i] != Keys(kvs)[j]
  }

  const Placeholder := "{{id}}"

  /** The dependency-list keys, in the order the generator visits them. */
  const DependencyKinds: seq<string> :=
    ["intent_extractor_templates", "skill_templates", "task_templates", "mission_ctrl_templates"]

  /** A record without dependency lists. */
  const NoDeps: seq<seq<DepDecl>> := [[], [], [], []]

  const SkillTemplates: seq<(string, Template)> := [
    ("base_python", Template(
      ["skills/base_python/{{id}}", "skills/skill_msgs"],
      "base skill template [python]",
      "Check README.md in {path}/{id}/ and edit src/{id}/skill_impl.py to implement your skill logic.",
      NoDeps)),
    ("db_connector_python", Template(
      ["skills/db_connector_python/{{id}}", "skills/skill_msgs"],
      "database connector mock-up [python]",
      "Check README.md in {path}/{id}/ and edit src/{id}/skill_impl.py to implement your skill logic.",
      NoDeps))
  ]

  const IntentExtractorTemplates: seq<(string, Template)> := [
    ("basic_chatbot", Template(
      ["intents/basic_chatbot/{{id}}"],
      "basic chatbot template [python]",
      "Check README.md in {path}/{id}/ and edit src/{id}/node_impl.py to implement your node logic.",
      NoDeps)),
    ("ollama_connector_python", Template(
      ["intents/ollama_connector_python/{{id}}"],
      "complete intent extraction example: LLM bridge using ollama [python]",
      "Check README.md in {path}/{id}/ and edit src/{id}/node_impl.py to implement your node logic.",
      NoDeps))
  ]

  const TaskTemplates: seq<(string, Template)> := [
    ("base_python", Template(
      ["tasks/base_python/{{id}}", "tasks/task_msgs"],
      "base task template [python]",
      "Check README.md in {path}/{id}/ and edit src/{id}/task_impl.py to implement your task logic.",
      NoDeps)),
    ("greet_task_python", Template(
      ["tasks/greet_task_python/{{id}}", "tasks/greet_task_msgs"],
      "'greet' task mock-up [python]",
      "Check README.md in {path}/{id}/ and edit src/{id}/task_impl.py to implement your task logic.",
      NoDeps))
  ]

  const MissionCtrlTemplates: seq<(string, Template)> := [
    ("base_python", Template(
      ["mission_ctrls/base_python/{{id}}"],
      "base robot supervisor [python]",
      "Check README.md in {path}/{id}/ and edit src/{id}/mission_controller.py to customize your application logic.",
      NoDeps)),
    ("base_intents_python", Template(
      ["mission_ctrls/base_intents_python/{{id}}"],
      "robot supervisor with intents handler [python]",
      "Check README.md in {path}/{id}/ and edit src/{id}/mission_controller.py to implement your application logic.",
      NoDeps)),
    ("llm_supervisor_python", Template(
      ["mission_ctrls/llm_supervisor_python/{{id}}"],
      "complete supervisor example, using LLMs to manage interactions with users [python]",
      "Check README.md in ./{path}/ and edit src/{id}/mission_controller.py to customize your application logic.",
      [ [DepDecl("ollama_connector_python", "ollama_connector", "Bridge with a ollama server")],
        [],
        [DepDecl("greet_task_python", "greet_task", "'greet' task")],
        [] ]))
  ]

  const ApplicationTemplates: seq<(string, Template)> := [
    ("llm_chatbot_python", Template(
      ["apps/python/{{id}}"],
      "complete sample app, using LLM to interact with users. It includes a supervisor and sample tasks and skills [python]",
      "Check README.md in ./{path}/ to learn how to configure and start your application.",
      [ [], [], [],
        [DepDecl("llm_supervisor_python", "llm_supervisor", "LLM-based mission controller")] ]))
  ]

  const TemplatesFamilies: seq<(string, Family)> := [
    ("intent", Family(IntentExtractorTemplates, "intent extractor",
       "perception module that extracts intents from user input. Example: a chatbot")),
    ("skill", Family(SkillTemplates, "skill",
       "short-term 'atomic' robot action, to be re-used by tasks and mission controllers. Examples: 'go to', 'say', 'perform pre-recorded motion'")),
    ("task", Family(TaskTemplates, "task",
       "time-limited robot activity, started by the mission controller. Might use skills. Examples: 'greet person', 'fetch object'")),
    ("mission", Family(MissionCtrlTemplates, "mission controller",
       "manages the whole behaviour of the robot. Examples: 'receptionist', 'waiter'")),
    ("app", Family(ApplicationTemplates, "application",
       "complete application including a mission controller, a sample task and skill, and sample resources"))
  ]

  const AvailableRobots: seq<string> := ["generic", "ari", "tiago"]

  const TplExt := "j2"

  /** The family a dependency list refers to: `key.split("_")[0]`. */
  function FamilyOfKey(key: string): string
  {
    BeforeFirst(key, '_')
  }

  /** `a + "_" + b` belongs to family `a` when `a` has no underscore. */
  lemma {:induction false} FamilyOfKeyOf(a: string, b: string, key: string)
    requires '_' !in a && key == a + "_" + b
    ensures FamilyOfKey(key) == a
  {
    BeforeFirstOf(a, '_', b);
  }

  /** The family each dependency kind names. */
  const KindFamilies: seq<string> := ["intent", "skill", "task", "mission"]

  lemma KindFamily(i: nat)
    requires i < |DependencyKinds|
    ensures FamilyOfKey(DependencyKinds[i]) == KindFamilies[i]
  {
    if i == 0 {
      FamilyOfKeyOf("intent", "extractor_templates", DependencyKinds[0]);
    } else if i == 1 {
      FamilyOfKeyOf("skill", "templates", DependencyKinds[1]);
    } else if i == 2 {
      FamilyOfKeyOf("task", "templates", DependencyKinds[2]);
    } else {
      FamilyOfKeyOf("mission", "ctrl_templates", DependencyKinds[3]);
    }
  }

  /** A catalog: the families, in declaration order. */
  type Families = seq<(string, Family)>

  /** `TEMPLATES_FAMILIES[family]["src"][name]` in catalog `cat`; `None` is the `KeyError`. */
  function Find(cat: Families, family: string, name: string): Option<Template>
  {
    match Lookup(cat, family)
    case None => None
    case Some(f) => Lookup(f.src, name)
  }

  /** A template of the program's own catalog. */
  function LookupTemplate(family: string, name: string): Option<Template>
  {
    Find(TemplatesFamilies, family, name)
  }

  /**
   * The architectural layer of a family: perception, atomic actions,
   * time-bounded activities, supervision, whole application.
   */
  function Layer(family: string): nat
  {
    if family == "intent" then 0
    else if family == "skill" then 1
    else if family == "task" then 2
    else if family == "mission" then 3
    else if family == "app" then 4
    else 0
  }

  lemma UniqueFamilyKeys()
    ensures UniqueKeys(TemplatesFamilies)
  {
    var ks := Keys(TemplatesFamilies);
    assert ks == ["intent", "skill", "task", "mission", "app"];
    // the five family names already differ in their first letter
    forall i, j | 0 <= i < j < |ks| ensures ks[i] != ks[j] {
      assert ks[i][0] == "istma"[i] && ks[j][0] == "istma"[j];
    }
  }

  /** Where a template that can be looked up sits in the catalog. */
  lemma {:induction false} TemplateIndex(family: string, name: string) returns (i: nat, j: nat)
    requires LookupTemplate(family, name).Some?
    ensures i < |TemplatesFamilies| && j < |TemplatesFamilies[i].1.src|
    ensures TemplatesFamilies[i].0 == family
    ensures TemplatesFamilies[i].1.src[j] == (name, LookupTemplate(family, name).value)
  {
    var f := Lookup(TemplatesFamilies, family).value;
    LookupFound(TemplatesFamilies, family);
    i :| 0 <= i < |TemplatesFamilies| && TemplatesFamilies[i] == (family, f);
    LookupFound(f.src, name);
    j :| 0 <= j < |f.src| && f.src[j] == (name, LookupTemplate(family, name).value);
  }

  lemma {:induction false} TemplateAt(i: nat, j: nat)
    requires i < |TemplatesFamilies| && j < |TemplatesFamilies[i].1.src|
    requires UniqueKeys(TemplatesFamilies[i].1.src)
    ensures LookupTemplate(TemplatesFamilies[i].0, TemplatesFamilies[i].1.src[j].0)
            == Some(TemplatesFamilies[i].1.src[j].1)
  {
    UniqueFamilyKeys();
    LookupAt(TemplatesFamilies, i);
    LookupAt(TemplatesFamilies[i].1.src, j);
  }

  /**
   * What the generator needs of each template of family `family`: it has a
   * blueprint location, it declares only the dependency kinds the generator
   * visits, each of them names a family of a lower layer, and every declared
   * dependency names a template of that family.
   */
  predicate TemplateWellFormed(cat: Families, family: string, t: Template)
  {
    && |t.tplPaths| > 0
    && |t.deps| == |KindFamilies|
    && forall k :: 0 <= k < |t.deps| && t.deps[k] != [] ==>
         && Layer(KindFamilies[k]) < Layer(family)
         && forall d :: d in t.deps[k] ==> Find(cat, KindFamilies[k], d.template).Some?
  }

  /** Template `name` of `family` is well formed, if the catalog has it. */
  predicate WellFormedAt(cat: Families, family: string, name: string)
  {
    Find(cat, family, name).Some? ==> TemplateWellFormed(cat, family, Find(cat, family, name).value)
  }

  /** A catalog all of whose templates are well formed. */
  ghost predicate Sound(cat: Families)
  {
    forall family, name :: WellFormedAt(cat, family, name)
  }

  lemma SoundAt(cat: Families, family: string, name: string)
    requires Sound(cat) && Find(cat, family, name).Some?
    ensures TemplateWellFormed(cat, family, Find(cat, family, name).value)
  {
    assert WellFormedAt(cat, family, name);
  }

  lemma SupervisorDependencies()
    ensures LookupTemplate("intent", "ollama_connector_python").Some?
    ensures LookupTemplate("task", "greet_task_python").Some?
  {
    assert Keys(IntentExtractorTemplates) == ["basic_chatbot", "ollama_connector_python"];
    TemplateAt(0, 1);
    assert Keys(TaskTemplates) == ["base_python", "greet_task_python"];
    TemplateAt(2, 1);
  }

  lemma SupervisorWellFormed()
    ensures TemplateWellFormed(TemplatesFamilies, "mission", MissionCtrlTemplates[2].1)
  {
    var t := MissionCtrlTemplates[2].1;
    forall k | 0 <= k < |t.deps| && t.deps[k] != []
      ensures Layer(KindFamilies[k]) < Layer("mission")
      ensures forall d :: d in t.deps[k] ==> Find(TemplatesFamilies, KindFamilies[k], d.template).Some?
    {
      SupervisorDependencies();
    }
  }

  lemma ChatbotDependency()
    ensures LookupTemplate("mission", "llm_supervisor_python").Some?
  {
    assert Keys(MissionCtrlTemplates) == ["base_python", "base_intents_python", "llm_supervisor_python"];
    TemplateAt(3, 2);
  }

  lemma ChatbotWellFormed()
    ensures TemplateWellFormed(TemplatesFamilies, "app", ApplicationTemplates[0].1)
  {
    var t := ApplicationTemplates[0].1;
    forall k | 0 <= k < |t.deps| && t.deps[k] != []
      ensures Layer(KindFamilies[k]) < Layer("app")
      ensures forall d :: d in t.deps[k] ==> Find(TemplatesFamilies, KindFamilies[k], d.template).Some?
    {
      ChatbotDependency();
    }
  }

  lemma {:induction false} EntryWellFormed(i: nat, j: nat)
    requires i < |TemplatesFamilies| && j < |TemplatesFamilies[i].1.src|
    ensures TemplateWellFormed(TemplatesFamilies, TemplatesFamilies[i].0, TemplatesFamilies[i].1.src[j].1)
  {
    if i == 3 && j == 2 {
      SupervisorWellFormed();
    } else if i == 4 {
      ChatbotWellFormed();
    } else if i == 0 {
      assert IntentExtractorTemplates[j].1.deps == NoDeps;
    } else if i == 1 {
      assert SkillTemplates[j].1.deps == NoDeps;
    } else if i == 2 {
      assert TaskTemplates[j].1.deps == NoDeps;
    } else {
      assert MissionCtrlTemplates[j].1.deps == NoDeps;
    }
  }

  /** Every template the generator can look up is well formed. */
  lemma {:induction false} CatalogWellFormed(family: string, name: string)
    requires LookupTemplate(family, name).Some?
    ensures TemplateWellFormed(TemplatesFamilies, family, LookupTemplate(family, name).value)
  {
    var i, j := TemplateIndex(family, name);
    EntryWellFormed(i, j);
  }

  /** The program's catalog is sound. */
  lemma CatalogSound()
    ensures Sound(TemplatesFamilies)
  {
    forall family, name ensures WellFormedAt(TemplatesFamilies, family, name) {
      if Find(TemplatesFamilies, family, name).Some? {
        CatalogWellFormed(family, name);
      }
    }
  }

  /** Template `name` of `family` declares `d` in its dependency list of kind `k`. */
  predicate Declares(family: string, name: string, k: int, d: DepDecl)
  {
    && LookupTemplate(family, name).Some?
    && 0 <= k < |LookupTemplate(family, name).value.deps|
    && d in LookupTemplate(family, name).value.deps[k]
  }

  /** A dependency edge of the catalog, from one (family, template) pair to another. */
  ghost predicate Edge(from: (string, string), to: (string, string))
  {
    exists k, d :: Declares(from.0, from.1, k, d) && k < |DependencyKinds| && to == (FamilyOfKey(DependencyKinds[k]), d.template)
  }

  /** Every edge resolves to a template, and it leads to a lower layer. */
  lemma EdgeDescends(from: (string, string), to: (string, string))
    requires Edge(from, to)
    ensures LookupTemplate(to.0, to.1).Some?
    ensures Layer(to.0) < Layer(from.0)
  {
    var k, d :| Declares(from.0, from.1, k, d) && k < |DependencyKinds| && to == (FamilyOfKey(DependencyKinds[k]), d.template);
    KindFamily(k);
    CatalogWellFormed(from.0, from.1);
  }

  /** A chain of dependency edges. */
  ghost predicate IsPath(p: seq<(string, string)>)
  {
    forall i :: 0 <= i < |p| - 1 ==> Edge(p[i], p[i + 1])
  }

  lemma {:induction false} PathDescends(p: seq<(string, string)>)
    requires IsPath(p) && |p| > 0
    ensures Layer(p[|p| - 1].0) + |p| - 1 <= Layer(p[0].0)
  {
    if |p| > 1 {
      assert IsPath(p[1..]) by {
        forall i | 0 <= i < |p[1..]| - 1 ensures Edge(p[1..][i], p[1..][i + 1]) {
          assert p[1..][i] == p[i + 1] && p[1..][i + 1] == p[i + 2];
        }
      }
      PathDescends(p[1..]);
      EdgeDescends(p[0], p[1]);
    }
  }

  /**
   * The dependency graph is acyclic, and no chain of dependencies has more
   * than five templates in it: this is what makes the generator's recursion
   * terminate.
   */
  lemma Acyclic(p: seq<(string, string)>)
    requires IsPath(p) && |p| > 1
    ensures p[0] != p[|p| - 1]
    ensures |p| <= 5
  {
    PathDescends(p);
  }
}
