/**
 * The `create` command of `rpk` once its arguments are parsed: the
 * questions, the `data` dictionary built from the answers, and
 * `generate_skeleton` into the chosen path. The program runs it over its
 * own catalog, `TemplatesFamilies`, which `CatalogSound` shows sound; it is
 * stated here for any sound catalog `cat`.
 */
module CreateCommand {
  import opened Py
  import opened Catalog
  import opened Output
  import opened Prompt
  import opened Generator
  import opened Interactive
  import opened Skeleton

  /** The author every generated unit starts with. */
  const Author := "TODO"

  /**
   * `rpk create [--robot R] FAMILY [--yes] [--template T] [--id ID] [--path P]`:
   * no name is passed to the questions; `intents` is what `get_intents`
   * found and `year` the current year.
   */
  method Create(cat: Families, family: string, template: string, id: string, robot: string, yes: bool, path: Path,
                intents: seq<Intent>, year: int, randomId: string, console: Console, ws: Workspace, ld: Loader)
    returns (s: Session, status: Option<Status>)
    requires Sound(cat) && IsRandomId(randomId) && console.Valid() && ws.Valid()
    requires ld.naming == Conventions
    modifies console, ws
    ensures console.Valid() && ws.Valid() && ws.initial == old(ws.initial)
    ensures s == Interactive.Create(cat, Args(id, "", family, template, robot, yes), randomId, old(console.Rest()))
    ensures !s.Created? ==> ws.log == old(ws.log) && status.None?
    ensures s.Created? ==>
      var c := s.choices;
      var o := Expand(cat, c.family, c.template,
                      Data(c.id, c.name, intents, c.robot, Author, year, []), c.robot, path, ld);
      status == Some(o.status) && ws.log == old(ws.log) + o.effects
  {
    s := InteractiveCreate(cat, Args(id, "", family, template, robot, yes), randomId, console);
    if !s.Created? {
      return s, None;
    }
    var c := s.choices;
    var data := new Context(Data(c.id, c.name, intents, c.robot, Author, year, []));
    var st := GenerateSkeleton(cat, data, c.family, c.template, c.robot, path, ld, ws);
    status := Some(st);
  }
}
