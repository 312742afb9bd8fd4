/**
 * `generate_skeleton` of `rpk`: depth-first generation of a template and of
 * the templates it depends on.
 *
 * `Expand` is the specification: the effects one call has (files written,
 * banners shown), the dependency list it leaves in the caller's context and
 * how it ends. `GenerateSkeleton` is the imperative recursive procedure, with
 * its loops, proved to have exactly those effects. The lemmas state what the
 * generator promises: immediate dependencies only, dependencies before the
 * parent, the robot filter, the output path of every blueprint, the abort on
 * an empty blueprint location, one banner per generated unit, and success for
 * every catalog template when no blueprint location is empty.
 */
module Generator {
  import opened Py
  import opened Catalog
  import opened Output

  /** One entry of the optional intents catalog, carried through unchanged. */
  datatype Intent = Intent(
    intent: string,
    description: string,
    requiredThematicRoles: seq<string>,
    optionalThematicRoles: seq<string>)

  /** The `data` dictionary every blueprint is rendered against. */
  datatype Data = Data(
    id: string,
    name: string,
    intents: seq<Intent>,
    robot: string,
    author: string,
    year: int,
    dependencies: seq<string>)

  /**
   * The template engine as the generator sees it: the blueprint names a
   * location lists (jinja2's `list_templates`), and the text a blueprint of a
   * location renders to against a context (`get_template(...).render(data)`).
   */
  datatype Loader = Loader(listing: string -> seq<string>, render: (string, string, Data) -> string, naming: Naming)

  /** A text `str.replace` can search for. */
  type Pattern = s: string | |s| > 0 witness "_"

  /**
   * How blueprints and their locations are named: the placeholder the unit's
   * id replaces, the blueprint extension, and the marker of blueprints meant
   * only for the robots their name mentions.
   */
  datatype Naming = Naming(placeholder: Pattern, ext: string, marker: string)

  /** Blueprints whose name holds this marker are for the robots the name mentions. */
  const RobotMarker := "pages_only_ari"

  /** The program's conventions: `{{id}}`, `TPL_EXT` and the ARI marker. */
  const Conventions := Naming(Placeholder, TplExt, RobotMarker)

  /** The robot filter: a blueprint is skipped when it is marked and does not name `robot`. */
  predicate Skipped(nm: Naming, name: string, robot: string)
  {
    Contains(name, nm.marker) && !Contains(name, robot)
  }

  /** The package directory a location renders into: its last segment, id substituted. */
  function UnitDir(nm: Naming, location: string, id: string): string
  {
    Replace(LastSegment(location), nm.placeholder, id)
  }

  /** The file a blueprint renders into: id substituted, then the dot and extension cut off. */
  function OutputFile(nm: Naming, name: string, id: string): string
  {
    DropLast(Replace(name, nm.placeholder, id), 1 + |nm.ext|)
  }

  function OutputPath(nm: Naming, root: Path, location: string, name: string, id: string): Path
  {
    root + [UnitDir(nm, location, id), OutputFile(nm, name, id)]
  }

  datatype Status =
    | Done
    /** `KeyError` on the family or template name */
    | UnknownTemplate(family: string, template: string)
    /** a blueprint location without blueprints: exit status 1 */
    | EmptyLocation(location: string)

  /** What one call does: its effects, the `dependencies` it leaves in `data`, how it ends. */
  datatype Outcome = Outcome(effects: seq<Effect>, dependencies: seq<string>, status: Status)

  /** What rendering a template's own locations does. */
  datatype Rendering = Rendering(effects: seq<Effect>, status: Status)

  /** The entries of dependency list `k`, each with the family it refers to. */
  function Tagged(family: string, ds: seq<DepDecl>): (r: seq<(string, DepDecl)>)
    ensures |r| == |ds|
    ensures forall i :: 0 <= i < |ds| ==> r[i] == (family, ds[i])
  {
    seq(|ds|, i requires 0 <= i < |ds| => (family, ds[i]))
  }

  /**
   * The dependencies of `t` declared in the lists of kind `k` and later,
   * in the order the generator visits them.
   */
  function DepItems(t: Template, k: nat): seq<(string, DepDecl)>
    decreases |KindFamilies| - k
  {
    if k >= |KindFamilies| || k >= |t.deps| then []
    else Tagged(KindFamilies[k], t.deps[k]) + DepItems(t, k + 1)
  }

  /** The ids of a list of dependencies. */
  function Ids(items: seq<(string, DepDecl)>): (r: seq<string>)
    ensures |r| == |items|
    ensures forall i :: 0 <= i < |items| ==> r[i] == items[i].1.id
  {
    seq(|items|, i requires 0 <= i < |items| => items[i].1.id)
  }

  predicate Below(items: seq<(string, DepDecl)>, bound: nat)
  {
    forall i :: 0 <= i < |items| ==> Layer(items[i].0) < bound
  }

  lemma BelowConcat(a: seq<(string, DepDecl)>, b: seq<(string, DepDecl)>, bound: nat)
    requires Below(a, bound) && Below(b, bound)
    ensures Below(a + b, bound)
  {
    forall i | 0 <= i < |a + b| ensures Layer((a + b)[i].0) < bound {
      if i >= |a| {
        assert (a + b)[i] == b[i - |a|];
      }
    }
  }

  lemma KindBelow(cat: Families, family: string, t: Template, k: nat)
    requires TemplateWellFormed(cat, family, t)
    requires k < |KindFamilies| && k < |t.deps|
    ensures Below(Tagged(KindFamilies[k], t.deps[k]), Layer(family))
  {
    if t.deps[k] != [] {
      assert Layer(KindFamilies[k]) < Layer(family);
    }
  }

  /** The dependencies of a well-formed template belong to lower layers. */
  lemma {:induction false} DepItemsBelow(cat: Families, family: string, t: Template, k: nat)
    requires TemplateWellFormed(cat, family, t)
    ensures Below(DepItems(t, k), Layer(family))
    decreases |KindFamilies| - k
  {
    if k < |KindFamilies| && k < |t.deps| {
      DepItemsBelow(cat, family, t, k + 1);
      KindBelow(cat, family, t, k);
      BelowConcat(Tagged(KindFamilies[k], t.deps[k]), DepItems(t, k + 1), Layer(family));
    }
  }

  /** The blueprints of `names` the robot filter lets through, in order. */
  function Kept(nm: Naming, names: seq<string>, robot: string): (r: seq<string>)
    ensures forall n :: n in r <==> n in names && !Skipped(nm, n, robot)
  {
    if names == [] then []
    else (if Skipped(nm, names[0], robot) then [] else [names[0]]) + Kept(nm, names[1..], robot)
  }

  /** Rendering blueprint `name` of `location` against `data` into its output file. */
  function BlueprintWrite(location: string, name: string, data: Data, root: Path, ld: Loader): Effect
  {
    Wrote(OutputPath(ld.naming, root, location, name, data.id), ld.render(location, name, data))
  }

  /** The writes for the blueprints `names` of `location`. */
  function RenderNames(location: string, names: seq<string>, data: Data, robot: string, root: Path, ld: Loader): seq<Effect>
  {
    if names == [] then []
    else
      (if Skipped(ld.naming, names[0], robot) then [] else [BlueprintWrite(location, names[0], data, root, ld)])
      + RenderNames(location, names[1..], data, robot, root, ld)
  }

  /** Rendering each of `locations` in turn, stopping at the first one that lists nothing. */
  function RenderLocations(locations: seq<string>, data: Data, robot: string, root: Path, ld: Loader): Rendering
    decreases |locations|, 1
  {
    if locations == [] then Rendering([], Done) else RenderFirst(locations, data, robot, root, ld)
  }

  /** Rendering the first of `locations`, then, unless it lists nothing, the others. */
  function RenderFirst(locations: seq<string>, data: Data, robot: string, root: Path, ld: Loader): Rendering
    requires locations != []
    decreases |locations|, 0
  {
    if ld.listing(locations[0]) == [] then Rendering([], EmptyLocation(locations[0]))
    else
      var here := RenderNames(locations[0], ld.listing(locations[0]), data, robot, root, ld);
      var rest := RenderLocations(locations[1..], data, robot, root, ld);
      Rendering(here + rest.effects, rest.status)
  }

  /**
   * One call `generate_skeleton(d, family, name, robot, root)`: its dependencies
   * first, then its own locations, then its banner.
   */
  function Expand(cat: Families, family: string, name: string, d: Data, robot: string, root: Path, ld: Loader): Outcome
    requires Sound(cat)
    decreases Layer(family), 2
  {
    match Find(cat, family, name)
    case None => Outcome([], d.dependencies, UnknownTemplate(family, name))
    case Some(t) =>
      SoundAt(cat, family, name);
      ExpandTemplate(cat, family, t, d, robot, root, ld)
  }

  /** Generating template `t` of `family`, once it is found in the catalog. */
  function ExpandTemplate(cat: Families, family: string, t: Template, d: Data, robot: string, root: Path, ld: Loader): Outcome
    requires Sound(cat) && TemplateWellFormed(cat, family, t)
    decreases Layer(family), 1
  {
    DepItemsBelow(cat, family, t, 0);
    var ds := ExpandDeps(cat, DepItems(t, 0), Layer(family), d.(dependencies := []), robot, root, ld);
    if ds.status != Done then ds
    else
      var data := d.(dependencies := ds.dependencies);
      var r := RenderLocations(t.tplPaths, data, robot, root, ld);
      if r.status != Done then Outcome(ds.effects + r.effects, ds.dependencies, r.status)
      else Outcome(ds.effects + r.effects + [Help(t.postInstallHelp, root, d.id)], ds.dependencies, Done)
  }

  /**
   * Generating the dependencies `items` of a template in turn, recording each
   * id in the parent's list before generating it, stopping at the first that
   * fails. Each dependency gets a copy of the parent's context with its own
   * id and name.
   */
  function ExpandDeps(cat: Families, items: seq<(string, DepDecl)>, bound: nat, d: Data, robot: string, root: Path, ld: Loader): Outcome
    requires Sound(cat)
    requires Below(items, bound)
    decreases bound, 0, |items|
  {
    if items == [] then Outcome([], d.dependencies, Done)
    else
      var (family, decl) := items[0];
      var child := d.(id := decl.id, name := decl.name);
      var parent := d.(dependencies := d.dependencies + [decl.id]);
      var c := Expand(cat, family, decl.template, child, robot, root, ld);
      if c.status != Done then Outcome(c.effects, parent.dependencies, c.status)
      else
        var rest := ExpandDeps(cat, items[1..], bound, parent, robot, root, ld);
        Outcome(c.effects + rest.effects, rest.dependencies, rest.status)
  }

  // ---------------------------------------------------------------------
  // Generating a run of dependencies piece by piece

  /** `first`, then `next` when `first` succeeded. */
  function AndThen(first: Outcome, next: Outcome): Outcome
  {
    if first.status != Done then first
    else Outcome(first.effects + next.effects, next.dependencies, next.status)
  }

  /** Generating one dependency of a parent whose context is `d`. */
  function ExpandOne(cat: Families, family: string, decl: DepDecl, d: Data, robot: string, root: Path, ld: Loader): Outcome
    requires Sound(cat)
  {
    var c := Expand(cat, family, decl.template, d.(id := decl.id, name := decl.name), robot, root, ld);
    Outcome(c.effects, d.dependencies + [decl.id], c.status)
  }

  /** A run of dependencies is its first one and then, unless that one stopped, the others. */
  lemma ExpandDepsCons(cat: Families, items: seq<(string, DepDecl)>, bound: nat, d: Data, robot: string, root: Path, ld: Loader)
    requires Sound(cat)
    requires Below(items, bound) && items != []
    ensures Below(items[1..], bound) && Layer(items[0].0) < bound
    ensures var first := ExpandOne(cat, items[0].0, items[0].1, d, robot, root, ld);
            ExpandDeps(cat, items, bound, d, robot, root, ld)
            == AndThen(first, ExpandDeps(cat, items[1..], bound, d.(dependencies := first.dependencies), robot, root, ld))
  {
  }

  /**
   * Generating `a + b` is generating `a` and then, unless that stopped,
   * generating `b` in the context `a` left behind.
   */
  lemma {:induction false} ExpandDepsAppend(cat: Families, a: seq<(string, DepDecl)>, b: seq<(string, DepDecl)>, bound: nat,
                                            d: Data, robot: string, root: Path, ld: Loader)
    requires Sound(cat)
    requires Below(a, bound) && Below(b, bound)
    ensures Below(a + b, bound)
    ensures var first := ExpandDeps(cat, a, bound, d, robot, root, ld);
            ExpandDeps(cat, a + b, bound, d, robot, root, ld)
            == AndThen(first, ExpandDeps(cat, b, bound, d.(dependencies := first.dependencies), robot, root, ld))
    decreases |a|
  {
    BelowConcat(a, b, bound);
    if a == [] {
      assert a + b == b;
      assert d.(dependencies := d.dependencies) == d;
    } else {
      var (family, decl) := a[0];
      var child := d.(id := decl.id, name := decl.name);
      var parent := d.(dependencies := d.dependencies + [decl.id]);
      var c := Expand(cat, family, decl.template, child, robot, root, ld);
      assert (a + b)[0] == a[0];
      assert (a + b)[1..] == a[1..] + b;
      if c.status == Done {
        ExpandDepsAppend(cat, a[1..], b, bound, parent, robot, root, ld);
        var rest := ExpandDeps(cat, a[1..], bound, parent, robot, root, ld);
        var tail := ExpandDeps(cat, b, bound, d.(dependencies := rest.dependencies), robot, root, ld);
        assert d.(dependencies := rest.dependencies) == parent.(dependencies := rest.dependencies);
        if rest.status == Done {
          assert c.effects + (rest.effects + tail.effects) == (c.effects + rest.effects) + tail.effects;
        }
      }
    }
  }

  // ---------------------------------------------------------------------
  // The robot filter and the output paths

  /** The blueprints written for one location are exactly the listed ones the filter keeps, in order. */
  lemma {:induction false} RenderNamesKept(location: string, names: seq<string>, data: Data, robot: string, root: Path, ld: Loader)
    ensures var r := RenderNames(location, names, data, robot, root, ld);
            var kept := Kept(ld.naming, names, robot);
            |r| == |kept| && forall i :: 0 <= i < |kept| ==> r[i] == BlueprintWrite(location, kept[i], data, root, ld)
  {
    if names != [] {
      RenderNamesKept(location, names[1..], data, robot, root, ld);
    }
  }

  /**
   * A listed blueprint is written if and only if the robot filter keeps it:
   * every kept blueprint is written, and every write is of a kept blueprint.
   */
  lemma RobotFilter(location: string, names: seq<string>, data: Data, robot: string, root: Path, ld: Loader)
    ensures forall n :: n in names && !Skipped(ld.naming, n, robot) ==>
              BlueprintWrite(location, n, data, root, ld) in RenderNames(location, names, data, robot, root, ld)
    ensures forall e :: e in RenderNames(location, names, data, robot, root, ld) ==>
              exists n :: n in names && !Skipped(ld.naming, n, robot) && e == BlueprintWrite(location, n, data, root, ld)
  {
    var r := RenderNames(location, names, data, robot, root, ld);
    var kept := Kept(ld.naming, names, robot);
    RenderNamesKept(location, names, data, robot, root, ld);
    forall n | n in names && !Skipped(ld.naming, n, robot)
      ensures BlueprintWrite(location, n, data, root, ld) in r
    {
      var i :| 0 <= i < |kept| && kept[i] == n;
      assert r[i] == BlueprintWrite(location, n, data, root, ld);
    }
    forall e | e in r
      ensures exists n :: n in names && !Skipped(ld.naming, n, robot) && e == BlueprintWrite(location, n, data, root, ld)
    {
      var i :| 0 <= i < |r| && r[i] == e;
      assert kept[i] in kept;
    }
  }

  /** The blueprints marked for ARI are always kept when generating for `ari`. */
  lemma MarkedKeptForAri(name: string)
    requires Contains(name, RobotMarker)
    ensures !Skipped(Conventions, name, "ari")
  {
    assert OccursAt(RobotMarker, "ari", 11);
    ContainsAt(RobotMarker, "ari");
    ContainsTransitive(name, RobotMarker, "ari");
  }

  /** Substituting the id leaves the blueprint extension in place. */
  lemma ReplaceBeforeExtension(base: string, id: string)
    ensures Replace(base + "." + TplExt, Placeholder, id) == Replace(base, Placeholder, id) + "." + TplExt
  {
    var ext := "." + TplExt;
    assert |ext| == 3 && ext[0] == '.';
    assert '.' !in Placeholder;
    ReplaceSplit(base, ext, Placeholder, id);
    assert |Placeholder| == 6;
    assert Replace(ext, Placeholder, id) == ext;
    assert base + "." + TplExt == base + ext;
  }

  /** Cutting one character more than the extension's length removes exactly `.j2`. */
  lemma DropExtension(b: string)
    ensures DropLast(b + "." + TplExt, 1 + |TplExt|) == b
  {
    assert |TplExt| == 2;
    assert (b + "." + TplExt)[..|b|] == b;
  }

  /**
   * The output path of a blueprint `base.j2` of a location whose last
   * segment is `seg`: the id is substituted in both and the extension cut.
   */
  lemma OutputPathOf(root: Path, dir: string, seg: string, base: string, id: string)
    requires '/' !in seg
    ensures OutputPath(Conventions, root, dir + "/" + seg, base + "." + TplExt, id)
            == root + [Replace(seg, Placeholder, id), Replace(base, Placeholder, id)]
  {
    LastSegmentOf(dir, seg);
    ReplaceBeforeExtension(base, id);
    DropExtension(Replace(base, Placeholder, id));
  }

  /** A location ending in the placeholder renders into a directory named after the id. */
  lemma UnitDirOfPlaceholder(dir: string, id: string)
    ensures UnitDir(Conventions, dir + "/" + Placeholder, id) == id
  {
    assert '/' !in Placeholder;
    LastSegmentOf(dir, Placeholder);
    assert Placeholder[..|Placeholder|] == Placeholder;
    assert Placeholder[|Placeholder|..] == "";
  }

  // ---------------------------------------------------------------------
  // Blueprint locations

  /** Every blueprint of every location in turn, with no early stop. */
  function AllWrites(locations: seq<string>, data: Data, robot: string, root: Path, ld: Loader): seq<Effect>
  {
    if locations == [] then []
    else RenderNames(locations[0], ld.listing(locations[0]), data, robot, root, ld)
         + AllWrites(locations[1..], data, robot, root, ld)
  }

  /** Rendering succeeds exactly when no location is empty, and then writes every kept blueprint of each. */
  lemma {:induction false} RenderLocationsDone(locations: seq<string>, data: Data, robot: string, root: Path, ld: Loader)
    ensures RenderLocations(locations, data, robot, root, ld).status == Done
            <==> forall i :: 0 <= i < |locations| ==> ld.listing(locations[i]) != []
    ensures RenderLocations(locations, data, robot, root, ld).status == Done
            ==> RenderLocations(locations, data, robot, root, ld).effects == AllWrites(locations, data, robot, root, ld)
  {
    if locations != [] {
      RenderLocationsDone(locations[1..], data, robot, root, ld);
      if forall i :: 0 <= i < |locations[1..]| ==> ld.listing(locations[1..][i]) != [] {
        forall i | 0 <= i < |locations| && ld.listing(locations[0]) != []
          ensures ld.listing(locations[i]) != []
        {
          if i > 0 {
            assert locations[i] == locations[1..][i - 1];
          }
        }
      } else {
        var i :| 0 <= i < |locations[1..]| && ld.listing(locations[1..][i]) == [];
        assert locations[i + 1] == locations[1..][i];
      }
    }
  }

  /**
   * At the first empty location generation stops with that location as the
   * cause: the writes of the locations before it are all that happens.
   */
  lemma {:induction false} RenderLocationsStops(locations: seq<string>, i: nat, data: Data, robot: string, root: Path, ld: Loader)
    requires i < |locations| && ld.listing(locations[i]) == []
    requires forall j :: 0 <= j < i ==> ld.listing(locations[j]) != []
    ensures RenderLocations(locations, data, robot, root, ld)
            == Rendering(AllWrites(locations[..i], data, robot, root, ld), EmptyLocation(locations[i]))
  {
    if i > 0 {
      assert ld.listing(locations[0]) != [];
      forall j | 0 <= j < i - 1 ensures ld.listing(locations[1..][j]) != [] {
        assert locations[1..][j] == locations[j + 1];
      }
      RenderLocationsStops(locations[1..], i - 1, data, robot, root, ld);
      assert locations[1..][..i - 1] == locations[..i][1..];
    }
  }

  // ---------------------------------------------------------------------
  // Dependency lists

  /**
   * The ids a run of dependencies leaves in its parent's list: a prefix of
   * the ids of `items`, all of them when every dependency was generated, at
   * least the failing one's otherwise.
   */
  lemma {:induction false} ExpandDepsRecords(cat: Families, items: seq<(string, DepDecl)>, bound: nat, d: Data, robot: string, root: Path, ld: Loader)
    requires Sound(cat)
    requires Below(items, bound)
    ensures var o := ExpandDeps(cat, items, bound, d, robot, root, ld);
            && o.dependencies <= d.dependencies + Ids(items)
            && (o.status == Done ==> o.dependencies == d.dependencies + Ids(items))
            && (o.status != Done ==> |d.dependencies| < |o.dependencies|)
    decreases |items|
  {
    if items != [] {
      ExpandDepsCons(cat, items, bound, d, robot, root, ld);
      var first := ExpandOne(cat, items[0].0, items[0].1, d, robot, root, ld);
      assert Ids(items) == [items[0].1.id] + Ids(items[1..]);
      ConcatAssoc(d.dependencies, [items[0].1.id], Ids(items[1..]));
      if first.status == Done {
        ExpandDepsRecords(cat, items[1..], bound, d.(dependencies := first.dependencies), robot, root, ld);
      }
    }
  }

  /**
   * A call leaves in its own context the ids of its immediate dependencies
   * only, in kind order and then declaration order (a prefix of them when
   * generation stops early).
   */
  lemma ImmediateDependencies(cat: Families, family: string, name: string, d: Data, robot: string, root: Path, ld: Loader)
    requires Sound(cat)
    requires Find(cat, family, name).Some?
    ensures var o := Expand(cat, family, name, d, robot, root, ld);
            var ids := Ids(DepItems(Find(cat, family, name).value, 0));
            && o.dependencies <= ids
            && (o.status == Done ==> o.dependencies == ids)
            && (ids != [] ==> o.dependencies != [])
  {
    var t := Find(cat, family, name).value;
    SoundAt(cat, family, name);
    DepItemsBelow(cat, family, t, 0);
    var ds := ExpandDeps(cat, DepItems(t, 0), Layer(family), d.(dependencies := []), robot, root, ld);
    ExpandDepsRecords(cat, DepItems(t, 0), Layer(family), d.(dependencies := []), robot, root, ld);
    assert [] + Ids(DepItems(t, 0)) == Ids(DepItems(t, 0));
    var o := Expand(cat, family, name, d, robot, root, ld);
    assert o == ExpandTemplate(cat, family, t, d, robot, root, ld);
    assert o.dependencies == ds.dependencies;
    assert o.status == Done ==> ds.status == Done;
  }

  lemma ChatbotLookup()
    ensures LookupTemplate("app", "llm_chatbot_python") == Some(ApplicationTemplates[0].1)
  {
    TemplateAt(4, 0);
  }

  lemma SupervisorLookup()
    ensures LookupTemplate("mission", "llm_supervisor_python") == Some(MissionCtrlTemplates[2].1)
  {
    assert Keys(MissionCtrlTemplates) == ["base_python", "base_intents_python", "llm_supervisor_python"];
    TemplateAt(3, 2);
  }

  /** The ids declared in the dependency lists `k` and later, in visiting order. */
  function DeclaredIds(deps: seq<seq<DepDecl>>, k: nat): seq<string>
    decreases |KindFamilies| - k
  {
    if k >= |KindFamilies| || k >= |deps| then []
    else seq(|deps[k]|, i requires 0 <= i < |deps[k]| => deps[k][i].id) + DeclaredIds(deps, k + 1)
  }

  /** The ids of the dependencies the generator visits are the declared ones, whatever their families. */
  lemma {:induction false} IdsOfDepItems(t: Template, k: nat)
    ensures Ids(DepItems(t, k)) == DeclaredIds(t.deps, k)
    decreases |KindFamilies| - k
  {
    if k < |KindFamilies| && k < |t.deps| {
      IdsOfDepItems(t, k + 1);
      var head := Tagged(KindFamilies[k], t.deps[k]);
      assert Ids(head + DepItems(t, k + 1)) == Ids(head) + Ids(DepItems(t, k + 1));
    }
  }

  lemma ChatbotIds()
    ensures Ids(DepItems(ApplicationTemplates[0].1, 0)) == ["llm_supervisor"]
  {
    var t := ApplicationTemplates[0].1;
    IdsOfDepItems(t, 0);
    assert DeclaredIds(t.deps, 4) == [];
    assert DeclaredIds(t.deps, 3) == ["llm_supervisor"];
  }

  lemma DeclaredIdsOfIntentAndTask(deps: seq<seq<DepDecl>>, x: DepDecl, y: DepDecl)
    requires deps == [[x], [], [y], []]
    ensures DeclaredIds(deps, 0) == [x.id, y.id]
  {
    assert DeclaredIds(deps, 4) == [];
    assert DeclaredIds(deps, 3) == [];
    assert DeclaredIds(deps, 2) == [y.id];
    assert DeclaredIds(deps, 1) == [y.id];
  }

  lemma SupervisorIds()
    ensures Ids(DepItems(MissionCtrlTemplates[2].1, 0)) == ["ollama_connector", "greet_task"]
  {
    var t := MissionCtrlTemplates[2].1;
    IdsOfDepItems(t, 0);
    DeclaredIdsOfIntentAndTask(t.deps, t.deps[0][0], t.deps[2][0]);
  }

  /** The sample application records its supervisor, and not the supervisor's own dependencies. */
  lemma ChatbotDependencies(d: Data, robot: string, root: Path, ld: Loader)
    ensures Sound(TemplatesFamilies)
    ensures Expand(TemplatesFamilies, "app", "llm_chatbot_python", d, robot, root, ld).dependencies == ["llm_supervisor"]
  {
    CatalogSound();
    ChatbotLookup();
    ChatbotIds();
    ImmediateDependencies(TemplatesFamilies, "app", "llm_chatbot_python", d, robot, root, ld);
  }

  /** The sample supervisor records its intent extractor, then its task. */
  lemma SupervisorDependencies(d: Data, robot: string, root: Path, ld: Loader)
    ensures Sound(TemplatesFamilies)
    ensures var o := Expand(TemplatesFamilies, "mission", "llm_supervisor_python", d, robot, root, ld);
            o.status == Done ==> o.dependencies == ["ollama_connector", "greet_task"]
  {
    CatalogSound();
    SupervisorLookup();
    SupervisorIds();
    ImmediateDependencies(TemplatesFamilies, "mission", "llm_supervisor_python", d, robot, root, ld);
  }

  // ---------------------------------------------------------------------
  // Ordering, banners and success

  /** The number of help banners among `es`. */
  function CountHelp(es: seq<Effect>): nat
  {
    if es == [] then 0 else (if es[0].Help? then 1 else 0) + CountHelp(es[1..])
  }

  lemma {:induction false} CountHelpAppend(a: seq<Effect>, b: seq<Effect>)
    ensures CountHelp(a + b) == CountHelp(a) + CountHelp(b)
  {
    if a == [] {
      assert a + b == b;
    } else {
      assert (a + b)[1..] == a[1..] + b;
      CountHelpAppend(a[1..], b);
    }
  }

  lemma {:induction false} RenderNamesNoHelp(location: string, names: seq<string>, data: Data, robot: string, root: Path, ld: Loader)
    ensures CountHelp(RenderNames(location, names, data, robot, root, ld)) == 0
  {
    if names != [] {
      RenderNamesNoHelp(location, names[1..], data, robot, root, ld);
      CountHelpAppend(if Skipped(ld.naming, names[0], robot) then [] else [BlueprintWrite(location, names[0], data, root, ld)],
                      RenderNames(location, names[1..], data, robot, root, ld));
    }
  }

  lemma {:induction false} AllWritesNoHelp(locations: seq<string>, data: Data, robot: string, root: Path, ld: Loader)
    ensures CountHelp(AllWrites(locations, data, robot, root, ld)) == 0
  {
    if locations != [] {
      RenderNamesNoHelp(locations[0], ld.listing(locations[0]), data, robot, root, ld);
      AllWritesNoHelp(locations[1..], data, robot, root, ld);
      CountHelpAppend(RenderNames(locations[0], ld.listing(locations[0]), data, robot, root, ld),
                      AllWrites(locations[1..], data, robot, root, ld));
    }
  }

  /** The number of units a template generates: itself and, recursively, its dependencies. */
  function Units(cat: Families, family: string, name: string): nat
    requires Sound(cat)
    decreases Layer(family), 1
  {
    match Find(cat, family, name)
    case None => 0
    case Some(t) =>
      SoundAt(cat, family, name);
      DepItemsBelow(cat, family, t, 0);
      1 + UnitsOf(cat, DepItems(t, 0), Layer(family))
  }

  function UnitsOf(cat: Families, items: seq<(string, DepDecl)>, bound: nat): nat
    requires Sound(cat)
    requires Below(items, bound)
    decreases bound, 0, |items|
  {
    if items == [] then 0 else Units(cat, items[0].0, items[0].1.template) + UnitsOf(cat, items[1..], bound)
  }

  /**
   * A successful call shows one banner per generated unit, its dependencies'
   * included, and its own banner last.
   */
  lemma {:induction false} HelpPerUnit(cat: Families, family: string, name: string, d: Data, robot: string, root: Path, ld: Loader)
    requires Sound(cat)
    requires Expand(cat, family, name, d, robot, root, ld).status == Done
    ensures Find(cat, family, name).Some?
    ensures var o := Expand(cat, family, name, d, robot, root, ld);
            && CountHelp(o.effects) == Units(cat, family, name)
            && |o.effects| > 0
            && o.effects[|o.effects| - 1] == Help(Find(cat, family, name).value.postInstallHelp, root, d.id)
    decreases Layer(family), 1
  {
    var t := Find(cat, family, name).value;
    SoundAt(cat, family, name);
    DepItemsBelow(cat, family, t, 0);
    var ds := ExpandDeps(cat, DepItems(t, 0), Layer(family), d.(dependencies := []), robot, root, ld);
    var data := d.(dependencies := ds.dependencies);
    var r := RenderLocations(t.tplPaths, data, robot, root, ld);
    HelpPerUnitOf(cat, DepItems(t, 0), Layer(family), d.(dependencies := []), robot, root, ld);
    RenderLocationsDone(t.tplPaths, data, robot, root, ld);
    AllWritesNoHelp(t.tplPaths, data, robot, root, ld);
    CountHelpAppend(ds.effects, r.effects);
    CountHelpAppend(ds.effects + r.effects, [Help(t.postInstallHelp, root, d.id)]);
  }

  lemma {:induction false} HelpPerUnitOf(cat: Families, items: seq<(string, DepDecl)>, bound: nat, d: Data, robot: string, root: Path, ld: Loader)
    requires Sound(cat)
    requires Below(items, bound)
    requires ExpandDeps(cat, items, bound, d, robot, root, ld).status == Done
    ensures CountHelp(ExpandDeps(cat, items, bound, d, robot, root, ld).effects) == UnitsOf(cat, items, bound)
    decreases bound, 0, |items|
  {
    if items != [] {
      var (family, decl) := items[0];
      var child := d.(id := decl.id, name := decl.name);
      var parent := d.(dependencies := d.dependencies + [decl.id]);
      var c := Expand(cat, family, decl.template, child, robot, root, ld);
      HelpPerUnit(cat, family, decl.template, child, robot, root, ld);
      HelpPerUnitOf(cat, items[1..], bound, parent, robot, root, ld);
      CountHelpAppend(c.effects, ExpandDeps(cat, items[1..], bound, parent, robot, root, ld).effects);
    }
  }

  /**
   * Dependencies come first: a successful call ends with the writes of its
   * own locations, in order, then its banner; every banner of its
   * dependencies comes before the first of those writes.
   */
  lemma DependenciesFirst(cat: Families, family: string, name: string, d: Data, robot: string, root: Path, ld: Loader)
    requires Sound(cat)
    requires Expand(cat, family, name, d, robot, root, ld).status == Done
    ensures Find(cat, family, name).Some?
    ensures var o := Expand(cat, family, name, d, robot, root, ld);
            var own := AllWrites(Find(cat, family, name).value.tplPaths, d.(dependencies := o.dependencies), robot, root, ld);
            var n := |o.effects|;
            && |own| < n
            && o.effects[n - 1 - |own|..n - 1] == own
            && CountHelp(o.effects[..n - 1 - |own|]) == Units(cat, family, name) - 1
  {
    var t := Find(cat, family, name).value;
    SoundAt(cat, family, name);
    DepItemsBelow(cat, family, t, 0);
    var ds := ExpandDeps(cat, DepItems(t, 0), Layer(family), d.(dependencies := []), robot, root, ld);
    var data := d.(dependencies := ds.dependencies);
    var r := RenderLocations(t.tplPaths, data, robot, root, ld);
    HelpPerUnitOf(cat, DepItems(t, 0), Layer(family), d.(dependencies := []), robot, root, ld);
    RenderLocationsDone(t.tplPaths, data, robot, root, ld);
    var o := Expand(cat, family, name, d, robot, root, ld);
    assert o.effects == ds.effects + r.effects + [Help(t.postInstallHelp, root, d.id)];
    assert o.effects[..|ds.effects|] == ds.effects;
  }

  /** The dependencies of `items` all name catalog templates. */
  predicate Resolved(cat: Families, items: seq<(string, DepDecl)>)
  {
    forall i :: 0 <= i < |items| ==> Find(cat, items[i].0, items[i].1.template).Some?
  }

  lemma ResolvedConcat(cat: Families, a: seq<(string, DepDecl)>, b: seq<(string, DepDecl)>)
    requires Resolved(cat, a) && Resolved(cat, b)
    ensures Resolved(cat, a + b)
  {
    forall i | 0 <= i < |a + b| ensures Find(cat, (a + b)[i].0, (a + b)[i].1.template).Some? {
      if i >= |a| {
        assert (a + b)[i] == b[i - |a|];
      }
    }
  }

  lemma KindResolved(cat: Families, family: string, t: Template, k: nat)
    requires TemplateWellFormed(cat, family, t)
    requires k < |KindFamilies| && k < |t.deps|
    ensures Resolved(cat, Tagged(KindFamilies[k], t.deps[k]))
  {
    var tagged := Tagged(KindFamilies[k], t.deps[k]);
    forall i | 0 <= i < |tagged| ensures Find(cat, tagged[i].0, tagged[i].1.template).Some? {
      assert t.deps[k][i] in t.deps[k];
    }
  }

  /** Every dependency of a catalog template names a catalog template. */
  lemma {:induction false} DepItemsResolved(cat: Families, family: string, t: Template, k: nat)
    requires TemplateWellFormed(cat, family, t)
    ensures Resolved(cat, DepItems(t, k))
    decreases |KindFamilies| - k
  {
    if k < |KindFamilies| && k < |t.deps| {
      DepItemsResolved(cat, family, t, k + 1);
      KindResolved(cat, family, t, k);
      ResolvedConcat(cat, Tagged(KindFamilies[k], t.deps[k]), DepItems(t, k + 1));
    }
  }

  /**
   * With every blueprint location listing something, generating any catalog
   * template succeeds: no missing dependency, no endless recursion.
   */
  lemma {:induction false} CatalogGenerates(cat: Families, family: string, name: string, d: Data, robot: string, root: Path, ld: Loader)
    requires Sound(cat)
    requires Find(cat, family, name).Some?
    requires forall location :: ld.listing(location) != []
    ensures Expand(cat, family, name, d, robot, root, ld).status == Done
    decreases Layer(family), 1
  {
    var t := Find(cat, family, name).value;
    SoundAt(cat, family, name);
    DepItemsBelow(cat, family, t, 0);
    DepItemsResolved(cat, family, t, 0);
    var ds := ExpandDeps(cat, DepItems(t, 0), Layer(family), d.(dependencies := []), robot, root, ld);
    CatalogGeneratesOf(cat, DepItems(t, 0), Layer(family), d.(dependencies := []), robot, root, ld);
    RenderLocationsDone(t.tplPaths, d.(dependencies := ds.dependencies), robot, root, ld);
  }

  lemma {:induction false} CatalogGeneratesOf(cat: Families, items: seq<(string, DepDecl)>, bound: nat, d: Data, robot: string, root: Path, ld: Loader)
    requires Sound(cat)
    requires Below(items, bound) && Resolved(cat, items)
    requires forall location :: ld.listing(location) != []
    ensures ExpandDeps(cat, items, bound, d, robot, root, ld).status == Done
    decreases bound, 0, |items|
  {
    if items != [] {
      var (family, decl) := items[0];
      var child := d.(id := decl.id, name := decl.name);
      var parent := d.(dependencies := d.dependencies + [decl.id]);
      CatalogGenerates(cat, family, decl.template, child, robot, root, ld);
      assert Resolved(cat, items[1..]) by {
        forall i | 0 <= i < |items[1..]| ensures Find(cat, items[1..][i].0, items[1..][i].1.template).Some? {
          assert items[1..][i] == items[i + 1];
        }
      }
      CatalogGeneratesOf(cat, items[1..], bound, parent, robot, root, ld);
    }
  }
}
