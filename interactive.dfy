/**
 * `rpk create`'s questions (`interactive_create`): the unit's id and name,
 * the family, the template and the robot, each taken from the command line
 * when given there and otherwise asked, in that order, on standard input.
 *
 * Only `KeyboardInterrupt` is caught around the questions, so the end of
 * the input and an answer that is not a number end the session with the
 * exception; a menu catches only the `IndexError` of a number outside it.
 */
module Interactive {
  import opened Py
  import opened Catalog
  import opened Prompt

  /** What the command line hands to `interactive_create`; `""` stands for `None`. */
  datatype Args = Args(id: string, name: string, family: string, template: string, robot: string, yes: bool)

  /** The five values `interactive_create` returns. */
  datatype Choices = Choices(id: string, name: string, family: string, template: string, robot: string)

  datatype Session =
    /** the values, and how many answers the questions consumed */
    | Created(choices: Choices, used: nat)
    /** `sys.exit(code)` */
    | Exited(code: int)
    /** an exception nothing catches */
    | Crashed(error: PyError)

  /** The same session, `k` answers later. */
  function Shift(s: Session, k: nat): Session
  {
    if s.Created? then Created(s.choices, s.used + k) else s
  }

  /** What `random_id` returns: five lower-case ASCII letters. */
  predicate IsRandomId(s: string)
  {
    |s| == 5 && forall i :: 0 <= i < |s| ==> 'a' <= s[i] <= 'z'
  }

  lemma RandomIdValid(s: string)
    requires IsRandomId(s)
    ensures ValidId(s)
  {
    assert s[0] in s;
    forall c | c in s ensures c != ' ' && c != '-' {
      var i :| 0 <= i < |s| && s[i] == c;
    }
  }

  /** The family menu: the catalog's families in declaration order, read by `int(input())`, no default. */
  function FamilyMenu(cat: Families): Menu
  {
    Menu(Keys(cat), false, false, false)
  }

  /**
   * The template menu of a family, read by `int(input().strip())`: entry 1
   * is the default when it is the only one.
   */
  function TemplateMenu(src: seq<(string, Template)>): Menu
  {
    Menu(Keys(src), true, |src| == 1, false)
  }

  /** The robot menu: `AVAILABLE_ROBOTS`, read by `int(input().strip() or 1)`. */
  const RobotMenu := Menu(AvailableRobots, true, true, false)

  /**
   * The id the `while not id` loop is entered with: a screened command-line
   * id, or in `--yes` mode the random one when there is none.
   */
  function StartId(a: Args, randomId: string): (id: string)
    ensures ValidId(a.id) ==> id == a.id
    ensures !ValidId(a.id) ==> id == (if a.yes then randomId else "")
  {
    var id := Screened(a.id);
    if id == "" && a.yes then randomId else id
  }

  /** The robot question, once the template is known. */
  function FromRobot(a: Args, id: string, name: string, family: string, template: string, answers: seq<string>): (s: Session)
    ensures s.Created? ==> s.used <= |answers|
    ensures s.Created? ==> s.choices.id == id && s.choices.name == name && s.choices.family == family && s.choices.template == template
    ensures s.Created? ==> s.choices.robot != ""
    ensures s.Created? && a.robot == "" ==> s.choices.robot in AvailableRobots
    ensures s.Created? && a.robot != "" ==> s.choices.robot == a.robot
    ensures a.robot == "" && a.yes ==> s == Created(Choices(id, name, family, template, AvailableRobots[0]), 0)
    ensures !s.Created? ==> s == Crashed(EOFError) || s == Crashed(ValueError)
  {
    var robot := if a.robot == "" && a.yes then AvailableRobots[0] else a.robot;
    var r := Given(robot, RobotMenu, answers);
    if r.Got? then Created(Choices(id, name, family, template, r.value), r.used)
    else Crashed(r.error)
  }

  /** The template question and what follows, once the family's templates `src` are known. */
  function FromTemplate(a: Args, id: string, name: string, family: string, src: seq<(string, Template)>, answers: seq<string>): (s: Session)
    ensures s.Created? ==> s.used <= |answers|
    ensures s.Created? ==> s.choices.id == id && s.choices.name == name && s.choices.family == family
    ensures s.Created? ==> s.choices.template != ""
    ensures s.Created? && a.template == "" ==> s.choices.template in Keys(src)
    ensures s.Created? && a.template != "" ==> s.choices.template == a.template
    ensures s.Created? && a.robot == "" ==> s.choices.robot in AvailableRobots
    ensures s.Created? && a.robot != "" ==> s.choices.robot == a.robot
    ensures !s.Created? ==> s == Crashed(EOFError) || s == Crashed(ValueError)
  {
    var r := Given(a.template, TemplateMenu(src), answers);
    if r.Got? then Shift(FromRobot(a, id, name, family, r.value, answers[r.used..]), r.used)
    else Crashed(r.error)
  }

  /**
   * The family question and what follows: a family the catalog lacks is a
   * `KeyError`, one without templates ends the program with status 1.
   */
  function FromFamily(cat: Families, a: Args, id: string, name: string, answers: seq<string>): (s: Session)
    ensures s.Created? ==> s.used <= |answers|
    ensures s.Created? ==> s.choices.id == id && s.choices.name == name
    ensures s.Created? ==> Lookup(cat, s.choices.family).Some? && Lookup(cat, s.choices.family).value.src != []
    ensures s.Created? && a.family != "" ==> s.choices.family == a.family
    ensures s.Created? && a.template == "" ==> s.choices.template in Keys(Lookup(cat, s.choices.family).value.src)
    ensures s.Created? && a.template != "" ==> s.choices.template == a.template
    ensures s.Created? ==> s.choices.template != "" && s.choices.robot != ""
    ensures s.Created? && a.robot == "" ==> s.choices.robot in AvailableRobots
    ensures s.Created? && a.robot != "" ==> s.choices.robot == a.robot
    ensures s.Exited? ==> s.code == 1
    ensures s.Crashed? ==> s.error == EOFError || s.error == ValueError || (s.error == KeyError(a.family) && a.family !in Keys(cat))
  {
    var r := Given(a.family, FamilyMenu(cat), answers);
    if !r.Got? then Crashed(r.error)
    else
      LookupFound(cat, r.value);
      match Lookup(cat, r.value)
      case None => Crashed(KeyError(r.value))
      case Some(f) =>
        if f.src == [] then Exited(1)
        else Shift(FromTemplate(a, id, name, r.value, f.src, answers[r.used..]), r.used)
  }

  /**
   * The name question, asked only when no name is given and not in `--yes`
   * mode, and what follows; an empty name is the id.
   */
  function FromName(cat: Families, a: Args, id: string, answers: seq<string>): (s: Session)
    ensures s.Created? ==> s.used <= |answers| && s.choices.id == id
    ensures s.Created? && a.name != "" ==> s.choices.name == a.name
    ensures s.Created? && id != "" ==> s.choices.name != ""
    ensures a.name != "" || a.yes ==> s == FromFamily(cat, a, id, if a.name != "" then a.name else id, answers)
    ensures a.name == "" && !a.yes && answers == [] ==> s == Crashed(EOFError)
    ensures s.Created? && a.name == "" && !a.yes ==> answers != [] && s.choices.name == (if answers[0] == "" then id else answers[0])
  {
    if a.name == "" && !a.yes then
      if answers == [] then Crashed(EOFError)
      else
        var name := if answers[0] == "" then id else answers[0];
        Shift(FromFamily(cat, a, id, name, answers[1..]), 1)
    else
      FromFamily(cat, a, id, if a.name == "" then id else a.name, answers)
  }

  /**
   * `interactive_create` over catalog `cat`, with the command-line values
   * `a`, the id `random_id` would draw, and the user's answers.
   */
  function Create(cat: Families, a: Args, randomId: string, answers: seq<string>): (s: Session)
    requires IsRandomId(randomId)
    ensures s.Created? ==> s.used <= |answers|
    ensures s.Created? ==> ValidId(s.choices.id) && s.choices.name != ""
    ensures s.Created? && ValidId(a.id) ==> s.choices.id == a.id
    ensures s.Created? && !ValidId(a.id) && a.yes ==> s.choices.id == randomId
    ensures s.Created? && a.name != "" ==> s.choices.name == a.name
    ensures s.Created? ==> Lookup(cat, s.choices.family).Some? && Lookup(cat, s.choices.family).value.src != []
    ensures s.Created? && a.family != "" ==> s.choices.family == a.family
    ensures s.Created? && a.template == "" ==> s.choices.template in Keys(Lookup(cat, s.choices.family).value.src)
    ensures s.Created? && a.template != "" ==> s.choices.template == a.template
    ensures s.Created? ==> s.choices.template != "" && s.choices.robot != ""
    ensures s.Created? && a.robot == "" ==> s.choices.robot in AvailableRobots
    ensures s.Created? && a.robot != "" ==> s.choices.robot == a.robot
    ensures s.Exited? ==> s.code == 1
    ensures s.Crashed? ==> s.error == EOFError || s.error == ValueError || (s.error == KeyError(a.family) && a.family !in Keys(cat))
  {
    RandomIdValid(randomId);
    var r := IdLoop(StartId(a, randomId), answers);
    if r.Got? then Shift(FromName(cat, a, r.value, answers[r.used..]), r.used)
    else Crashed(r.error)
  }

  /** In `--yes` mode with the family and the template given, nothing is asked. */
  lemma YesAsksNothing(cat: Families, a: Args, randomId: string, answers: seq<string>)
    requires IsRandomId(randomId) && a.yes
    requires a.family != "" && Lookup(cat, a.family).Some? && Lookup(cat, a.family).value.src != []
    requires a.template != ""
    ensures var id := if ValidId(a.id) then a.id else randomId;
      Create(cat, a, randomId, answers)
        == Created(Choices(id, if a.name != "" then a.name else id, a.family, a.template,
                           if a.robot != "" then a.robot else "generic"), 0)
  {
    RandomIdValid(randomId);
  }

  /**
   * A family given on the command line that the catalog lacks is a
   * `KeyError` right after the name, whatever the id, the name and the
   * answers still to come.
   */
  lemma UnknownFamilyCrashes(cat: Families, a: Args, id: string, name: string, answers: seq<string>)
    requires a.family != "" && a.family !in Keys(cat)
    ensures FromFamily(cat, a, id, name, answers) == Crashed(KeyError(a.family))
  {
    LookupFound(cat, a.family);
  }

  /**
   * A given family without templates ends the program with status 1 right
   * after the name, before any template question, whatever the id, the
   * name and the answers.
   */
  lemma EmptyFamilyExits(cat: Families, a: Args, id: string, name: string, answers: seq<string>)
    requires a.family != "" && Lookup(cat, a.family).Some? && Lookup(cat, a.family).value.src == []
    ensures FromFamily(cat, a, id, name, answers) == Exited(1)
  {
  }

  /** Without a usable id and without `--yes`, input that never gives a valid id ends in `EOFError`. */
  lemma NoValidIdCrashes(cat: Families, a: Args, randomId: string, answers: seq<string>)
    requires IsRandomId(randomId) && !a.yes && !ValidId(a.id)
    requires forall i :: 0 <= i < |answers| ==> !ValidId(answers[i])
    ensures Create(cat, a, randomId, answers) == Crashed(EOFError)
  {
  }

  /** With only the id given, pressing Return at the name question gives the id as the name. */
  lemma EmptyNameIsId(cat: Families, a: Args, randomId: string, answers: seq<string>)
    requires IsRandomId(randomId) && !a.yes && ValidId(a.id) && a.name == ""
    requires answers != [] && answers[0] == ""
    requires Create(cat, a, randomId, answers).Created?
    ensures Create(cat, a, randomId, answers).choices.name == a.id
  {
  }

  /** The program's own family menu, in the order it is printed. */
  lemma CatalogFamilyMenu()
    ensures FamilyMenu(TemplatesFamilies).entries == ["intent", "skill", "task", "mission", "app"]
  {
  }

  /**
   * The robot menu's default is "generic", also for an answer of white
   * space only; choice 0 is the last robot, "tiago"; "2" followed by the
   * unit separator 0x1F strips to "2", which is "ari".
   */
  lemma RobotMenuChoices(answers: seq<string>)
    requires answers != []
    ensures Strip(answers[0]) == "" ==> AskMenu(RobotMenu, answers) == Got("generic", 1)
    ensures answers[0] == "0" ==> AskMenu(RobotMenu, answers) == Got("tiago", 1)
    ensures answers[0] == "2" + [31 as char] ==> AskMenu(RobotMenu, answers) == Got("ari", 1)
  {
    if Strip(answers[0]) == "" {
      MenuDefault(RobotMenu, answers);
    }
    if answers[0] == "0" {
      MenuZeroIsLast(RobotMenu, answers);
    }
    if answers[0] == "2" + [31 as char] {
      assert Decimal(2) == "2";
      assert "" + Decimal(2) + [31 as char] == answers[0];
      MenuSelectsPadded(RobotMenu, 2, "", [31 as char], answers);
    }
  }

  /**
   * The family menu hands the answer to `int()` unstripped, and `int()`
   * does not skip the information separators: "2" followed by 0x1F is a
   * `ValueError` there.
   */
  lemma FamilySeparatorRaises(cat: Families, answers: seq<string>)
    requires answers != [] && answers[0] == "2" + [31 as char]
    ensures AskMenu(FamilyMenu(cat), answers) == Failed(ValueError)
  {
    ParseIntRejectsSeparator(answers[0], 1);
  }

  /**
   * The questions of `interactive_create`, asked on `console`, with what
   * `random_id` draws passed in.
   */
  method InteractiveCreate(cat: Families, a: Args, randomId: string, console: Console) returns (s: Session)
    requires IsRandomId(randomId) && console.Valid()
    modifies console
    ensures console.Valid() && console.lines == old(console.lines)
    ensures s == Create(cat, a, randomId, old(console.Rest()))
    ensures s.Created? ==> console.pos == old(console.pos) + s.used
  {
    ghost var answers := old(console.Rest());
    ghost var p0 := console.pos;
    var id := Screened(a.id);
    if id == "" && a.yes {
      id := randomId;
    }
    var rid := ReadId(id, console);
    if !rid.Got? {
      return Crashed(rid.error);
    }
    id := rid.value;
    Skip(console.lines, p0, rid.used);
    ghost var rest := answers[rid.used..];
    assert console.Rest() == rest;
    s := AskFromName(cat, a, id, console);
    s := Shift(s, rid.used);
  }

  method AskFromName(cat: Families, a: Args, id: string, console: Console) returns (s: Session)
    requires console.Valid()
    modifies console
    ensures console.Valid() && console.lines == old(console.lines)
    ensures s == FromName(cat, a, id, old(console.Rest()))
    ensures s.Created? ==> console.pos == old(console.pos) + s.used
  {
    ghost var answers := old(console.Rest());
    var name := a.name;
    if name == "" && !a.yes {
      var line := console.ReadLine();
      if line.None? {
        return Crashed(EOFError);
      }
      name := line.value;
      assert answers[1..] == console.Rest();
    }
    if name == "" {
      name := id;
    }
    s := AskFromFamily(cat, a, id, name, console);
    if a.name == "" && !a.yes {
      s := Shift(s, 1);
    }
  }

  method AskFromFamily(cat: Families, a: Args, id: string, name: string, console: Console) returns (s: Session)
    requires console.Valid()
    modifies console
    ensures console.Valid() && console.lines == old(console.lines)
    ensures s == FromFamily(cat, a, id, name, old(console.Rest()))
    ensures s.Created? ==> console.pos == old(console.pos) + s.used
  {
    ghost var answers := old(console.Rest());
    var r := ReadGiven(a.family, FamilyMenu(cat), console);
    if !r.Got? {
      return Crashed(r.error);
    }
    var family := r.value;
    LookupFound(cat, family);
    var f := Lookup(cat, family);
    if f.None? {
      return Crashed(KeyError(family));
    }
    if f.value.src == [] {
      return Exited(1);
    }
    s := AskFromTemplate(a, id, name, family, f.value.src, console);
    s := Shift(s, r.used);
  }

  method AskFromTemplate(a: Args, id: string, name: string, family: string, src: seq<(string, Template)>, console: Console) returns (s: Session)
    requires console.Valid()
    modifies console
    ensures console.Valid() && console.lines == old(console.lines)
    ensures s == FromTemplate(a, id, name, family, src, old(console.Rest()))
    ensures s.Created? ==> console.pos == old(console.pos) + s.used
  {
    var t := ReadGiven(a.template, TemplateMenu(src), console);
    if !t.Got? {
      return Crashed(t.error);
    }
    s := AskFromRobot(a, id, name, family, t.value, console);
    s := Shift(s, t.used);
  }

  method AskFromRobot(a: Args, id: string, name: string, family: string, template: string, console: Console) returns (s: Session)
    requires console.Valid()
    modifies console
    ensures console.Valid() && console.lines == old(console.lines)
    ensures s == FromRobot(a, id, name, family, template, old(console.Rest()))
    ensures s.Created? ==> console.pos == old(console.pos) + s.used
  {
    var robot := a.robot;
    if robot == "" && a.yes {
      robot := AvailableRobots[0];
    }
    var b := ReadGiven(robot, RobotMenu, console);
    if !b.Got? {
      return Crashed(b.error);
    }
    s := Created(Choices(id, name, family, template, b.value), b.used);
  }
}
