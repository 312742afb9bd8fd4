/**
 * `pal_app create`, the older single-template generator: the same id
 * question as `rpk`, a name question, robot and template menus that catch
 * every exception, and one template rendered into `path/id` with no
 * dependencies and no robot filter.
 */
module PalApp {
  import opened Py
  import opened Output
  import opened Prompt
  import Generator

  /** An entry of `AVAILABLE_TEMPLATES`. */
  datatype AppTemplate = AppTemplate(tplPath: string, shortDesc: string, postInstallHelp: string)

  const AvailableTemplates: seq<(string, AppTemplate)> := [
    ("python", AppTemplate(
       "python_script",
       "simple Python script",
       "Check README.md in ./{path}/ and edit src/{id}/application_controller.py to implement your application logic."))
  ]

  const AvailableRobots: seq<string> := ["ARI"]

  const TplExt := "j2"

  const AppPlaceholder: Generator.Pattern := "{{id}}"

  /**
   * The naming of blueprints: `{{id}}` and `TPL_EXT`; there is no robot
   * marker, since no blueprint is ever skipped.
   */
  const AppNaming := Generator.Naming(AppPlaceholder, TplExt, "")

  // ---------------------------------------------------------------------
  // The questions

  /** What the command line hands to `interactive_create`; `""` stands for `None`. */
  datatype AppArgs = AppArgs(id: string, template: string, robot: string)

  /** The four values `interactive_create` returns. */
  datatype AppChoices = AppChoices(id: string, name: string, template: string, robot: string)

  datatype AppSession =
    /** the values, and how many answers the questions consumed */
    | Chosen(choices: AppChoices, used: nat)
    /** an exception nothing catches */
    | Crashed(error: PyError)
    /** the end of the input inside a menu loop that catches everything: it asks forever */
    | Hangs

  function Later(s: AppSession, k: nat): AppSession
  {
    if s.Chosen? then Chosen(s.choices, s.used + k) else s
  }

  /** Both menus read `int(input())`, unstripped, catch every exception (`except Exception`) and have no default. */
  const RobotMenu := Menu(AvailableRobots, false, false, true)

  const TemplateMenu := Menu([AvailableTemplates[0].0], false, false, true)

  /** The robot and template questions, once the id and the name are known. */
  function FromRobot(a: AppArgs, id: string, name: string, answers: seq<string>): (s: AppSession)
    ensures s.Chosen? ==> s.used <= |answers| && s.choices.id == id && s.choices.name == name
    ensures s.Chosen? && a.robot == "" ==> s.choices.robot in AvailableRobots
    ensures s.Chosen? && a.robot != "" ==> s.choices.robot == a.robot
    ensures s.Chosen? && a.template == "" ==> s.choices.template == "python"
    ensures s.Chosen? && a.template != "" ==> s.choices.template == a.template
    ensures !s.Chosen? ==> s.Hangs?
    ensures a.robot != "" && a.template != "" ==> s == Chosen(AppChoices(id, name, a.template, a.robot), 0)
  {
    var r := Given(a.robot, RobotMenu, answers);
    if !r.Got? then Hangs
    else
      var t := Given(a.template, TemplateMenu, answers[r.used..]);
      if !t.Got? then Hangs
      else Chosen(AppChoices(id, name, t.value, r.value), r.used + t.used)
  }

  /**
   * `interactive_create` of `pal_app` with the command-line values `a` and
   * the user's answers. The name is always asked; an empty one is the id.
   */
  function AppCreate(a: AppArgs, answers: seq<string>): (s: AppSession)
    ensures s.Chosen? ==> s.used <= |answers|
    ensures s.Chosen? ==> ValidId(s.choices.id) && s.choices.name != ""
    ensures s.Chosen? && ValidId(a.id) ==> s.choices.id == a.id
    ensures s.Chosen? && a.robot == "" ==> s.choices.robot in AvailableRobots
    ensures s.Chosen? && a.template == "" ==> s.choices.template == "python"
    ensures s.Crashed? ==> s.error == EOFError
  {
    var r := IdLoop(Screened(a.id), answers);
    if !r.Got? then Crashed(r.error)
    else
      var rest := answers[r.used..];
      if rest == [] then Crashed(EOFError)
      else
        var name := if rest[0] == "" then r.value else rest[0];
        Later(FromRobot(a, r.value, name, rest[1..]), r.used + 1)
  }

  /** Every answer to either menu chooses its entry or asks again, number or not, so no session ends with `ValueError`. */
  lemma MenusCatchAll(a: AppArgs, answers: seq<string>, line: string)
    ensures Answer(RobotMenu, line).Chose? || Answer(RobotMenu, line).Again?
    ensures Answer(TemplateMenu, line).Chose? || Answer(TemplateMenu, line).Again?
    ensures AppCreate(a, answers) != Crashed(ValueError)
  {
  }

  /** Pressing Return at the name question gives the id as the name. */
  lemma EmptyNameIsId(a: AppArgs, answers: seq<string>)
    requires ValidId(a.id) && answers != [] && answers[0] == ""
    requires AppCreate(a, answers).Chosen?
    ensures AppCreate(a, answers).choices.name == a.id
  {
  }

  /** With id, robot and template given, only the name is asked. */
  lemma OnlyNameAsked(a: AppArgs, answers: seq<string>)
    requires ValidId(a.id) && a.robot != "" && a.template != "" && answers != []
    ensures AppCreate(a, answers)
         == Chosen(AppChoices(a.id, if answers[0] == "" then a.id else answers[0], a.template, a.robot), 1)
  {
  }

  /**
   * A robot menu answer that `int()` rejects, Return included, asks again
   * instead of ending the session; with the input exhausted the menu asks
   * forever.
   */
  lemma RobotMenuAsksAgain(answers: seq<string>)
    requires answers != [] && ParseInt(answers[0]).None?
    ensures AskMenu(RobotMenu, answers) == After(AskMenu(RobotMenu, answers[1..]), 1)
    ensures AskMenu(RobotMenu, [""]) == Stuck
  {
    MenuEmptyAnswer(RobotMenu, [""]);
  }

  /** Choice 1 of either menu is its only entry. */
  lemma MenusFirstEntry(answers: seq<string>)
    requires answers != [] && answers[0] == "1"
    ensures AskMenu(RobotMenu, answers) == Got("ARI", 1)
    ensures AskMenu(TemplateMenu, answers) == Got("python", 1)
  {
    assert Decimal(1) == "1";
    MenuSelects(RobotMenu, 1, answers);
    MenuSelects(TemplateMenu, 1, answers);
  }

  /** The questions of `interactive_create`, asked on `console`. */
  method InteractiveCreate(a: AppArgs, console: Console) returns (s: AppSession)
    requires console.Valid()
    modifies console
    ensures console.Valid() && console.lines == old(console.lines)
    ensures s == AppCreate(a, old(console.Rest()))
    ensures s.Chosen? ==> console.pos == old(console.pos) + s.used
  {
    ghost var answers := old(console.Rest());
    ghost var p0 := console.pos;
    var rid := ReadId(Screened(a.id), console);
    if !rid.Got? {
      return Crashed(rid.error);
    }
    Skip(console.lines, p0, rid.used);
    var line := console.ReadLine();
    if line.None? {
      return Crashed(EOFError);
    }
    var name := line.value;
    if name == "" {
      name := rid.value;
    }
    assert console.Rest() == answers[rid.used..][1..];
    s := AskFromRobot(a, rid.value, name, console);
    s := Later(s, rid.used + 1);
  }

  method AskFromRobot(a: AppArgs, id: string, name: string, console: Console) returns (s: AppSession)
    requires console.Valid()
    modifies console
    ensures console.Valid() && console.lines == old(console.lines)
    ensures s == FromRobot(a, id, name, old(console.Rest()))
    ensures s.Chosen? ==> console.pos == old(console.pos) + s.used
  {
    var r := ReadGiven(a.robot, RobotMenu, console);
    if !r.Got? {
      return Hangs;
    }
    var t := ReadGiven(a.template, TemplateMenu, console);
    if !t.Got? {
      return Hangs;
    }
    s := Chosen(AppChoices(id, name, t.value, r.value), r.used + t.used);
  }

  // ---------------------------------------------------------------------
  // Generation

  /** The `data` dictionary the blueprints are rendered against. */
  datatype AppData = AppData(id: string, name: string, intents: seq<Generator.Intent>, robot: string)

  /**
   * The template engine: the blueprint names under a template directory
   * (`list_templates`) and the text a blueprint renders to.
   */
  datatype AppLoader = AppLoader(listing: string -> seq<string>, render: (string, AppData) -> string)

  datatype AppStatus =
    | Generated
    /** "No template available": exit status 1 */
    | NoTemplate(template: string)
    /** "no app template found": exit status 1 */
    | NoBlueprints(template: string)

  datatype AppRun = AppRun(effects: seq<Effect>, status: AppStatus)

  /** The directory the application is generated in: `Path(path) / id`. */
  function AppRoot(path: Path, id: string): Path
  {
    path + [id]
  }

  /** Rendering blueprint `name` into `root`: id substituted, extension cut, no subdirectory added. */
  function AppWrite(name: string, data: AppData, root: Path, ld: AppLoader): Effect
  {
    Wrote(root + [Generator.OutputFile(AppNaming, name, data.id)], ld.render(name, data))
  }

  /** The writes of the `for tpl_name in tpls` loop, in order. */
  function AppWrites(names: seq<string>, data: AppData, root: Path, ld: AppLoader): (es: seq<Effect>)
    ensures |es| == |names|
    ensures forall i :: 0 <= i < |names| ==> es[i] == AppWrite(names[i], data, root, ld)
  {
    if names == [] then [] else [AppWrite(names[0], data, root, ld)] + AppWrites(names[1..], data, root, ld)
  }

  /**
   * The generation part of `main`: only the template `"python"` exists, and
   * it must list at least one blueprint; then every blueprint is written and
   * the help banner follows.
   */
  function Generate(tpl: string, data: AppData, path: Path, ld: AppLoader): (r: AppRun)
    ensures r.status == Generated <==> tpl == "python" && ld.listing(AvailableTemplates[0].1.tplPath) != []
    ensures r.status.NoTemplate? <==> tpl != "python"
    ensures r.status != Generated ==> r.effects == []
  {
    if tpl != "python" then AppRun([], NoTemplate(tpl))
    else
      var t := AvailableTemplates[0].1;
      var names := ld.listing(t.tplPath);
      if names == [] then AppRun([], NoBlueprints(tpl))
      else
        var root := AppRoot(path, data.id);
        AppRun(AppWrites(names, data, root, ld) + [Help(t.postInstallHelp, root, data.id)], Generated)
  }

  /** Every listed blueprint is written under `path/id`, none is skipped, then one banner. */
  lemma GenerateWritesAll(tpl: string, data: AppData, path: Path, ld: AppLoader)
    requires Generate(tpl, data, path, ld).status == Generated
    ensures var names := ld.listing("python_script");
      var es := Generate(tpl, data, path, ld).effects;
      && |es| == |names| + 1
      && (forall i :: 0 <= i < |names| ==>
            es[i] == Wrote(path + [data.id, Generator.OutputFile(AppNaming, names[i], data.id)], ld.render(names[i], data)))
      && es[|names|] == Help(AvailableTemplates[0].1.postInstallHelp, path + [data.id], data.id)
  {
    var names := ld.listing("python_script");
    var es := Generate(tpl, data, path, ld).effects;
    assert es[..|names|] == AppWrites(names, data, path + [data.id], ld);
    forall i | 0 <= i < |names|
      ensures es[i] == Wrote(path + [data.id, Generator.OutputFile(AppNaming, names[i], data.id)], ld.render(names[i], data))
    {
      assert es[i] == es[..|names|][i];
      assert path + [data.id] + [Generator.OutputFile(AppNaming, names[i], data.id)]
          == path + [data.id, Generator.OutputFile(AppNaming, names[i], data.id)];
    }
  }

  /** A blueprint `base.j2` is written to `path/id/base`, with the placeholder replaced by the id. */
  lemma OutputFileOf(base: string, id: string)
    ensures Generator.OutputFile(AppNaming, base + "." + TplExt, id) == Replace(base, AppPlaceholder, id)
  {
    Generator.ReplaceBeforeExtension(base, id);
    Generator.DropExtension(Replace(base, AppPlaceholder, id));
  }

  /**
   * After a run, a blueprint whose output file no other blueprint shares
   * holds what it renders to: a file written twice would hold the last text.
   */
  lemma GeneratedFile(files: map<Path, string>, tpl: string, data: AppData, path: Path, ld: AppLoader, n: string)
    requires Generate(tpl, data, path, ld).status == Generated
    requires n in ld.listing("python_script")
    requires forall m :: m in ld.listing("python_script") && m != n ==>
      Generator.OutputFile(AppNaming, m, data.id) != Generator.OutputFile(AppNaming, n, data.id)
    ensures var p := path + [data.id, Generator.OutputFile(AppNaming, n, data.id)];
      var after := Apply(files, Generate(tpl, data, path, ld).effects);
      p in after && after[p] == ld.render(n, data)
  {
    var names := ld.listing("python_script");
    var es := Generate(tpl, data, path, ld).effects;
    var p := path + [data.id, Generator.OutputFile(AppNaming, n, data.id)];
    GenerateWritesAll(tpl, data, path, ld);
    var k :| 0 <= k < |names| && names[k] == n;
    assert es[k] == Wrote(p, ld.render(n, data));
    forall i | 0 <= i < |es| && es[i].Wrote? && es[i].path == p
      ensures es[i].content == ld.render(n, data)
    {
      assert i < |names|;
      assert [data.id, Generator.OutputFile(AppNaming, names[i], data.id)][1] == es[i].path[|path| + 1];
    }
    LastWriteOnly(es, p, ld.render(n, data));
    ApplyLastWrite(files, es, p);
  }

  /**
   * The generation part of `main`, writing into `ws`: the exit status is 0
   * when the application was generated and 1 otherwise.
   */
  method GenerateApp(ws: Workspace, tpl: string, data: AppData, path: Path, ld: AppLoader) returns (code: int)
    requires ws.Valid()
    modifies ws
    ensures ws.Valid() && ws.initial == old(ws.initial)
    ensures ws.log == old(ws.log) + Generate(tpl, data, path, ld).effects
    ensures code == (if Generate(tpl, data, path, ld).status == Generated then 0 else 1)
  {
    if tpl != "python" {
      assert old(ws.log) + [] == ws.log;
      return 1;
    }
    var t := AvailableTemplates[0].1;
    var names := ld.listing(t.tplPath);
    if names == [] {
      assert old(ws.log) + [] == ws.log;
      return 1;
    }
    var root := AppRoot(path, data.id);
    ghost var all := AppWrites(names, data, root, ld);
    var i := 0;
    while i < |names|
      invariant 0 <= i <= |names|
      invariant ws.Valid() && ws.initial == old(ws.initial)
      invariant old(ws.log) + all == ws.log + AppWrites(names[i..], data, root, ld)
    {
      ghost var log := ws.log;
      assert names[i..][1..] == names[i + 1..];
      var file := Generator.OutputFile(AppNaming, names[i], data.id);
      ws.WriteFile(root + [file], ld.render(names[i], data));
      ConcatAssoc(log, [AppWrite(names[i], data, root, ld)], AppWrites(names[i + 1..], data, root, ld));
      i := i + 1;
    }
    assert names[i..] == [];
    assert ws.log + [] == ws.log;
    ws.ShowHelp(t.postInstallHelp, root, data.id);
    ConcatAssoc(old(ws.log), all, [Help(t.postInstallHelp, root, data.id)]);
    return 0;
  }

  /**
   * `pal_app create` after argument parsing: the questions, the `data`
   * dictionary, and generation into `path/id`. `intents` is what
   * `get_intents` found.
   */
  method Create(a: AppArgs, path: Path, intents: seq<Generator.Intent>, console: Console, ws: Workspace, ld: AppLoader)
    returns (s: AppSession, code: int)
    requires console.Valid() && ws.Valid()
    modifies console, ws
    ensures console.Valid() && ws.Valid() && ws.initial == old(ws.initial)
    ensures s == AppCreate(a, old(console.Rest()))
    ensures !s.Chosen? ==> ws.log == old(ws.log)
    ensures s.Chosen? ==>
      var data := AppData(s.choices.id, s.choices.name, intents, s.choices.robot);
      var run := Generate(s.choices.template, data, path, ld);
      && ws.log == old(ws.log) + run.effects
      && code == (if run.status == Generated then 0 else 1)
  {
    s := InteractiveCreate(a, console);
    if !s.Chosen? {
      return s, 1;
    }
    var data := AppData(s.choices.id, s.choices.name, intents, s.choices.robot);
    code := GenerateApp(ws, s.choices.template, data, path, ld);
  }
}
