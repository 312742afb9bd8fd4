/**
 * `generate_skeleton` as the program runs it: a recursive procedure over a
 * mutable context (the `data` dictionary) and the workspace, with a loop over
 * the dependency kinds, a loop over each kind's declarations, a loop over the
 * blueprint locations and a loop over each location's blueprints. Its
 * postcondition ties every effect, the final context and the exit status to
 * `Generator.Expand`, whose properties are proved in `Generator`.
 */
module Skeleton {
  import opened Py
  import opened Catalog
  import opened Output
  import opened Generator

  /** The `data` dictionary, updated in place. */
  class Context {
    var id: string
    var name: string
    var intents: seq<Intent>
    var robot: string
    var author: string
    var year: int
    var dependencies: seq<string>

    /** The dictionary's current contents. */
    function Value(): Data
      reads this
    {
      Data(id, name, intents, robot, author, year, dependencies)
    }

    constructor (d: Data)
      ensures Value() == d
    {
      id := d.id;
      name := d.name;
      intents := d.intents;
      robot := d.robot;
      author := d.author;
      year := d.year;
      dependencies := d.dependencies;
    }

    /** `dict(data)`: a new dictionary with the same entries. */
    method Copy() returns (c: Context)
      ensures fresh(c) && c.Value() == Value()
    {
      c := new Context(Value());
    }
  }

  /**
   * `generate_skeleton(data, family, name, robot, root)`. A status other
   * than `Done` is the exception or `sys.exit(1)` that ends the program.
   */
  method GenerateSkeleton(cat: Families, data: Context, family: string, name: string, robot: string, root: Path, ld: Loader, ws: Workspace)
    returns (status: Status)
    requires Sound(cat) && ws.Valid()
    modifies data, ws
    ensures ws.Valid() && ws.initial == old(ws.initial)
    ensures var o := Expand(cat, family, name, old(data.Value()), robot, root, ld);
            && status == o.status
            && ws.log == old(ws.log) + o.effects
            && data.Value() == old(data.Value()).(dependencies := o.dependencies)
    decreases Layer(family), 4
  {
    var found := Find(cat, family, name);
    if found.None? {
      return UnknownTemplate(family, name);
    }
    SoundAt(cat, family, name);
    status := GenerateTemplate(cat, data, family, found.value, robot, root, ld, ws);
  }

  /** The body of `generate_skeleton` once the template `tpl` is found. */
  method GenerateTemplate(cat: Families, data: Context, family: string, tpl: Template, robot: string, root: Path, ld: Loader, ws: Workspace)
    returns (status: Status)
    requires Sound(cat) && ws.Valid() && TemplateWellFormed(cat, family, tpl)
    modifies data, ws
    ensures ws.Valid() && ws.initial == old(ws.initial)
    ensures var o := ExpandTemplate(cat, family, tpl, old(data.Value()), robot, root, ld);
            && status == o.status
            && ws.log == old(ws.log) + o.effects
            && data.Value() == old(data.Value()).(dependencies := o.dependencies)
    decreases Layer(family), 3
  {
    DepItemsBelow(cat, family, tpl, 0);
    ghost var d0 := data.Value();
    ghost var ds := ExpandDeps(cat, DepItems(tpl, 0), Layer(family), d0.(dependencies := []), robot, root, ld);

    data.dependencies := [];
    assert data.Value() == d0.(dependencies := []);
    status := GenerateDependencies(cat, data, family, tpl, robot, root, ld, ws);
    if status != Done {
      return;
    }
    assert data.Value() == d0.(dependencies := ds.dependencies);
    ghost var r := RenderLocations(tpl.tplPaths, d0.(dependencies := ds.dependencies), robot, root, ld);
    ghost var log1 := ws.log;
    status := RenderTemplateLocations(tpl.tplPaths, data.Value(), robot, root, ld, ws);
    assert ws.log == log1 + r.effects;
    if status != Done {
      ConcatAssoc(old(ws.log), ds.effects, r.effects);
      return;
    }
    ws.ShowHelp(tpl.postInstallHelp, root, data.id);
    ConcatAssoc(old(ws.log), ds.effects, r.effects);
    ConcatAssoc(old(ws.log), ds.effects + r.effects, [Help(tpl.postInstallHelp, root, d0.id)]);
  }

  /**
   * The loop over the dependency kinds of `tpl`, in the fixed order intent,
   * skill, task, mission.
   */
  method GenerateDependencies(cat: Families, data: Context, family: string, tpl: Template, robot: string, root: Path, ld: Loader, ws: Workspace)
    returns (status: Status)
    requires Sound(cat) && ws.Valid() && TemplateWellFormed(cat, family, tpl)
    modifies data, ws
    ensures ws.Valid() && ws.initial == old(ws.initial)
    ensures Below(DepItems(tpl, 0), Layer(family))
    ensures var o := ExpandDeps(cat, DepItems(tpl, 0), Layer(family), old(data.Value()), robot, root, ld);
            && status == o.status
            && ws.log == old(ws.log) + o.effects
            && data.Value() == old(data.Value()).(dependencies := o.dependencies)
    decreases Layer(family), 2
  {
    DepItemsBelow(cat, family, tpl, 0);
    ghost var d0 := data.Value();
    ghost var ds := ExpandDeps(cat, DepItems(tpl, 0), Layer(family), d0, robot, root, ld);
    var k := 0;
    while k < |DependencyKinds|
      invariant 0 <= k <= |KindFamilies|
      invariant ws.Valid() && ws.initial == old(ws.initial)
      invariant data.Value() == d0.(dependencies := data.dependencies)
      invariant Below(DepItems(tpl, k), Layer(family))
      invariant var r := ExpandDeps(cat, DepItems(tpl, k), Layer(family), data.Value(), robot, root, ld);
                && old(ws.log) + ds.effects == ws.log + r.effects
                && ds.dependencies == r.dependencies && ds.status == r.status
    {
      var kind := FamilyOfKey(DependencyKinds[k]);
      KindFamily(k);
      KindBelow(cat, family, tpl, k);
      DepItemsBelow(cat, family, tpl, k + 1);
      ghost var dv := data.Value();
      ExpandDepsAppend(cat, Tagged(kind, tpl.deps[k]), DepItems(tpl, k + 1), Layer(family), dv, robot, root, ld);
      ghost var first := ExpandDeps(cat, Tagged(kind, tpl.deps[k]), Layer(family), dv, robot, root, ld);
      ghost var log := ws.log;
      status := GenerateKind(cat, data, kind, tpl.deps[k], Layer(family), robot, root, ld, ws);
      if status != Done {
        return;
      }
      ghost var rest := ExpandDeps(cat, DepItems(tpl, k + 1), Layer(family), data.Value(), robot, root, ld);
      ConcatAssoc(log, first.effects, rest.effects);
      k := k + 1;
    }
    assert DepItems(tpl, k) == [];
    assert ws.log + [] == ws.log;
    return Done;
  }

  /**
   * The loop over the declarations of one kind, in declaration order,
   * stopping at the first dependency that fails.
   */
  method GenerateKind(cat: Families, data: Context, kind: string, decls: seq<DepDecl>, bound: nat, robot: string, root: Path, ld: Loader, ws: Workspace)
    returns (status: Status)
    requires Sound(cat) && ws.Valid() && Below(Tagged(kind, decls), bound)
    modifies data, ws
    ensures ws.Valid() && ws.initial == old(ws.initial)
    ensures var o := ExpandDeps(cat, Tagged(kind, decls), bound, old(data.Value()), robot, root, ld);
            && status == o.status
            && ws.log == old(ws.log) + o.effects
            && data.Value() == old(data.Value()).(dependencies := o.dependencies)
    decreases bound, 1
  {
    ghost var d0 := data.Value();
    ghost var ds := ExpandDeps(cat, Tagged(kind, decls), bound, d0, robot, root, ld);
    assert decls[0..] == decls;
    var j := 0;
    while j < |decls|
      invariant 0 <= j <= |decls|
      invariant ws.Valid() && ws.initial == old(ws.initial)
      invariant data.Value() == d0.(dependencies := data.dependencies)
      invariant Below(Tagged(kind, decls[j..]), bound)
      invariant var r := ExpandDeps(cat, Tagged(kind, decls[j..]), bound, data.Value(), robot, root, ld);
                && old(ws.log) + ds.effects == ws.log + r.effects
                && ds.dependencies == r.dependencies && ds.status == r.status
    {
      ghost var items := Tagged(kind, decls[j..]);
      assert items[0] == (kind, decls[j]);
      assert items[1..] == Tagged(kind, decls[j + 1..]);
      ghost var dv := data.Value();
      ExpandDepsCons(cat, items, bound, dv, robot, root, ld);
      ghost var first := ExpandOne(cat, kind, decls[j], dv, robot, root, ld);
      ghost var log := ws.log;
      status := GenerateDependency(cat, data, kind, decls[j], bound, robot, root, ld, ws);
      if status != Done {
        return;
      }
      ghost var rest := ExpandDeps(cat, items[1..], bound, data.Value(), robot, root, ld);
      ConcatAssoc(log, first.effects, rest.effects);
      j := j + 1;
    }
    assert ws.log + [] == ws.log;
    return Done;
  }

  /**
   * One dependency: a copy of the context with the dependency's own id and
   * name, the id appended to the parent's list, then the recursive call.
   */
  method GenerateDependency(cat: Families, data: Context, kind: string, decl: DepDecl, bound: nat, robot: string, root: Path, ld: Loader, ws: Workspace)
    returns (status: Status)
    requires Sound(cat) && ws.Valid() && Layer(kind) < bound
    modifies data, ws
    ensures ws.Valid() && ws.initial == old(ws.initial)
    ensures var o := ExpandOne(cat, kind, decl, old(data.Value()), robot, root, ld);
            && status == o.status
            && ws.log == old(ws.log) + o.effects
            && data.Value() == old(data.Value()).(dependencies := o.dependencies)
    decreases bound, 0
  {
    var child := data.Copy();
    child.id := decl.id;
    data.dependencies := data.dependencies + [decl.id];
    child.name := decl.name;
    status := GenerateSkeleton(cat, child, kind, decl.template, robot, root, ld, ws);
  }

  /** The loop over a template's blueprint locations, in order. */
  method RenderTemplateLocations(locations: seq<string>, data: Data, robot: string, root: Path, ld: Loader, ws: Workspace)
    returns (status: Status)
    requires ws.Valid()
    modifies ws
    ensures ws.Valid() && ws.initial == old(ws.initial)
    ensures var r := RenderLocations(locations, data, robot, root, ld);
            status == r.status && ws.log == old(ws.log) + r.effects
  {
    assert locations[0..] == locations;
    var p := 0;
    while p < |locations|
      invariant 0 <= p <= |locations|
      invariant ws.Valid() && ws.initial == old(ws.initial)
      invariant old(ws.log) + RenderLocations(locations, data, robot, root, ld).effects
                == ws.log + RenderLocations(locations[p..], data, robot, root, ld).effects
      invariant RenderLocations(locations, data, robot, root, ld).status
                == RenderLocations(locations[p..], data, robot, root, ld).status
    {
      assert locations[p..][1..] == locations[p + 1..];
      assert RenderLocations(locations[p..], data, robot, root, ld) == RenderFirst(locations[p..], data, robot, root, ld);
      var location := locations[p];
      var names := ld.listing(location);
      if names == [] {
        assert ws.log + [] == ws.log;
        return EmptyLocation(location);
      }
      ghost var rest := RenderLocations(locations[p + 1..], data, robot, root, ld).effects;
      ghost var log := ws.log;
      RenderBlueprints(location, names, data, robot, root, ld, ws);
      ConcatAssoc(log, RenderNames(location, names, data, robot, root, ld), rest);
      p := p + 1;
    }
    assert ws.log + [] == ws.log;
    return Done;
  }

  /** The loop over the blueprints of one location, with the robot filter. */
  method RenderBlueprints(location: string, names: seq<string>, data: Data, robot: string, root: Path, ld: Loader, ws: Workspace)
    requires ws.Valid()
    modifies ws
    ensures ws.Valid() && ws.initial == old(ws.initial)
    ensures ws.log == old(ws.log) + RenderNames(location, names, data, robot, root, ld)
  {
    assert names[0..] == names;
    var q := 0;
    while q < |names|
      invariant 0 <= q <= |names|
      invariant ws.Valid() && ws.initial == old(ws.initial)
      invariant old(ws.log) + RenderNames(location, names, data, robot, root, ld)
                == ws.log + RenderNames(location, names[q..], data, robot, root, ld)
    {
      assert names[q..][1..] == names[q + 1..];
      var n := names[q];
      ghost var rest := RenderNames(location, names[q + 1..], data, robot, root, ld);
      ghost var log := ws.log;
      if !Skipped(ld.naming, n, robot) {
        ws.WriteFile(OutputPath(ld.naming, root, location, n, data.id), ld.render(location, n, data));
        ConcatAssoc(log, [BlueprintWrite(location, n, data, root, ld)], rest);
      } else {
        assert log + ([] + rest) == ws.log + rest;
      }
      q := q + 1;
    }
    assert names[q..] == [];
  }
}
