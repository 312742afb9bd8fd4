/**
 * What generation does to the outside world: files written (the file
 * system as a map from path to content, last write wins) and the console
 * lines that report them. A `Workspace` holds both; its invariant is that
 * the files are exactly what replaying the log over the initial files gives.
 */
module Output {
  import opened Py

  /**
   * A path, as the sequence of its parts joined by `/`. The last part is a
   * blueprint's output name, which may itself contain `/`, so parts are not
   * always single path segments.
   */
  type Path = seq<string>

  datatype Effect =
    /** a file written, reported as "Creating <path>..." */
    | Wrote(path: Path, content: string)
    /** the post-install banner: a help text, formatted with a path and an id */
    | Help(text: string, root: Path, id: string)

  function Step(files: map<Path, string>, e: Effect): map<Path, string>
  {
    match e
    case Wrote(p, c) => files[p := c]
    case Help(_, _, _) => files
  }

  /** The files after the effects `es`, in order, on top of `files`. */
  function Apply(files: map<Path, string>, es: seq<Effect>): map<Path, string>
    decreases |es|
  {
    if es == [] then files else Apply(Step(files, es[0]), es[1..])
  }

  lemma {:induction false} ApplyAppend(files: map<Path, string>, a: seq<Effect>, b: seq<Effect>)
    ensures Apply(files, a + b) == Apply(Apply(files, a), b)
    decreases |a|
  {
    if a != [] {
      assert (a + b)[1..] == a[1..] + b;
      ApplyAppend(Step(files, a[0]), a[1..], b);
    } else {
      assert a + b == b;
    }
  }

  /** The content of the last write to `p` among `es`, if there is one. */
  function LastWrite(es: seq<Effect>, p: Path): Option<string>
  {
    if es == [] then None
    else if es[|es| - 1].Wrote? && es[|es| - 1].path == p then Some(es[|es| - 1].content)
    else LastWrite(es[..|es| - 1], p)
  }

  /** Last write wins: a path holds what was last written to it, or what it held before. */
  lemma {:induction false} ApplyLastWrite(files: map<Path, string>, es: seq<Effect>, p: Path)
    ensures LastWrite(es, p).Some? ==> p in Apply(files, es) && Apply(files, es)[p] == LastWrite(es, p).value
    ensures LastWrite(es, p).None? ==> (p in Apply(files, es) <==> p in files)
    ensures LastWrite(es, p).None? && p in files ==> Apply(files, es)[p] == files[p]
    decreases |es|
  {
    if es != [] {
      var init, last := es[..|es| - 1], es[|es| - 1];
      assert es == init + [last];
      ApplyAppend(files, init, [last]);
      ApplyLastWrite(files, init, p);
    }
  }

  /** A path that every write to it among `es` gives `c`, and one does, ends up holding `c`. */
  lemma {:induction false} LastWriteOnly(es: seq<Effect>, p: Path, c: string)
    requires Wrote(p, c) in es
    requires forall i :: 0 <= i < |es| && es[i].Wrote? && es[i].path == p ==> es[i].content == c
    ensures LastWrite(es, p) == Some(c)
    decreases |es|
  {
    var last := es[|es| - 1];
    if !(last.Wrote? && last.path == p) {
      var init := es[..|es| - 1];
      assert es == init + [last];
      assert Wrote(p, c) in init;
      forall i | 0 <= i < |init| && init[i].Wrote? && init[i].path == p
        ensures init[i].content == c
      {
        assert init[i] == es[i];
      }
      LastWriteOnly(init, p, c);
    }
  }

  /** Running the same generation twice leaves the files as one run does. */
  lemma Idempotent(files: map<Path, string>, es: seq<Effect>)
    ensures Apply(Apply(files, es), es) == Apply(files, es)
  {
    var once := Apply(files, es);
    var twice := Apply(once, es);
    forall p ensures (p in twice <==> p in once) && (p in once ==> twice[p] == once[p]) {
      ApplyLastWrite(files, es, p);
      ApplyLastWrite(once, es, p);
    }
  }

  class Workspace {
    /** the file system, as far as generation writes to it */
    var files: map<Path, string>
    /** everything reported so far, in order */
    var log: seq<Effect>
    /** the file system before the first effect */
    ghost var initial: map<Path, string>

    ghost predicate Valid()
      reads this
    {
      forall es :: es == log ==> files == Apply(initial, es)
    }

    constructor (files: map<Path, string>)
      ensures Valid() && this.files == files && initial == files && log == []
    {
      this.files := files;
      this.log := [];
      this.initial := files;
    }

    /** `open(p, "w").write(content)` preceded by its "Creating" report */
    method WriteFile(p: Path, content: string)
      requires Valid()
      modifies this
      ensures Valid() && initial == old(initial)
      ensures files == old(files)[p := content]
      ensures log == old(log) + [Wrote(p, content)]
    {
      ApplyAppend(initial, log, [Wrote(p, content)]);
      files := files[p := content];
      log := log + [Wrote(p, content)];
    }

    /** the post-install banner */
    method ShowHelp(text: string, root: Path, id: string)
      requires Valid()
      modifies this
      ensures Valid() && initial == old(initial) && files == old(files)
      ensures log == old(log) + [Help(text, root, id)]
    {
      ApplyAppend(initial, log, [Help(text, root, id)]);
      log := log + [Help(text, root, id)];
    }
  }
}
