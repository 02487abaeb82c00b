/**
 * `active_scaffold_controller_for`: finding the scaffold controller of a
 * model by the naming convention. The inflector and `constantize` are
 * given: the inflector as four string functions, `constantize` as a map
 * from constant names to the controller classes that exist.
 */
module ControllerLookup {
  import opened Wrappers

  datatype Inflector = Inflector(
    underscore: string -> string,
    pluralize: string -> string,
    singularize: string -> string,
    camelize: string -> string)

  /** What the lookup reads of a controller's scaffold configuration. */
  datatype ControllerConfig = ControllerConfig(model: string, actions: set<string>)

  /** A controller class: its name and its `active_scaffold_config` (nil when it does not use the scaffold). */
  datatype ControllerClass = ControllerClass(name: string, config: Option<ControllerConfig>)

  /**
   * The searching controller: its name split at `::`, the constants that
   * exist, and the inflector. Models are named by their class names.
   */
  datatype Context = Context(controllerPath: seq<string>, constants: map<string, ControllerClass>, inflector: Inflector)

  /** The three reasons `ControllerNotFound` is raised. */
  datatype NotFound =
    | MissingActiveScaffold(controller: string)
    | WrongModel(controller: string, model: string)
    | CouldNotFind(tried: seq<string>)

  datatype Lookup = Found(controller: ControllerClass) | ControllerNotFound(reason: NotFound)

  /** Ruby's `Array#join`. */
  function Join(parts: seq<string>, sep: string): string
    decreases |parts|
  {
    if |parts| == 0 then ""
    else if |parts| == 1 then parts[0]
    else parts[0] + sep + Join(parts[1..], sep)
  }

  /** Joining four names puts the separator between each neighbouring pair. */
  lemma JoinFour(a: string, b: string, c: string, d: string, sep: string)
    ensures Join([a, b, c, d], sep) == a + sep + b + sep + c + sep + d
  {
    assert [a, b, c, d][1..] == [b, c, d];
    assert [b, c, d][1..] == [c, d];
    assert [c, d][1..] == [d];
    assert Join([c, d], sep) == c + sep + d;
    assert Join([b, c, d], sep) == b + sep + (c + sep + d);
  }

  /** The exception message for each reason. */
  function Message(reason: NotFound): string
  {
    match reason
    case MissingActiveScaffold(c) => c + " missing ActiveScaffold"
    case WrongModel(c, m) => "ActiveScaffold on " + c + " is not for " + m + " model."
    case CouldNotFind(tried) => CouldNotFindPrefix + Join(tried, TriedSeparator)
  }

  const CouldNotFindPrefix := "Could not find "
  const TriedSeparator := " or "

  const ScopeSeparator := "::"

  /**
   * The namespace of the searching controller with a trailing `::`: just
   * `::` for a top-level controller, the enclosing module followed by `::`
   * one level down.
   */
  function Namespace(path: seq<string>): (r: string)
    ensures |path| <= 1 ==> r == ScopeSeparator
    ensures |path| == 2 ==> r == path[0] + ScopeSeparator
  {
    Join(if |path| == 0 then [] else path[..|path| - 1], ScopeSeparator) + ScopeSeparator
  }

  /** Appending a part to a non-empty list appends the separator and the part to the joined string. */
  lemma {:induction false} JoinAppend(parts: seq<string>, x: string, sep: string)
    requires |parts| > 0
    ensures Join(parts + [x], sep) == Join(parts, sep) + sep + x
    decreases |parts|
  {
    if |parts| > 1 {
      assert (parts + [x])[1..] == parts[1..] + [x];
      JoinAppend(parts[1..], x, sep);
    } else {
      assert (parts + [x])[1..] == [x];
    }
  }

  /**
   * Each enclosing module adds its name and a `::` to the namespace: for a
   * controller nested two or more levels down, the namespace is that of its
   * enclosing module followed by the module's own name and `::`.
   */
  lemma NamespaceOfNested(path: seq<string>)
    requires |path| >= 3
    ensures Namespace(path) == Namespace(path[..|path| - 1]) + path[|path| - 2] + ScopeSeparator
  {
    var outer := path[..|path| - 2];
    assert path[..|path| - 1] == outer + [path[|path| - 2]];
    assert path[..|path| - 1][..|path| - 2] == outer;
    JoinAppend(outer, path[|path| - 2], ScopeSeparator);
  }

  /** `Admin::Shop::UsersController` searches in `Admin::Shop::`. */
  lemma NamespaceExample()
    ensures Namespace(["Admin", "Shop", "UsersController"]) == "Admin::Shop::"
  {
    NamespaceOfNested(["Admin", "Shop", "UsersController"]);
    assert ["Admin", "Shop", "UsersController"][..2] == ["Admin", "Shop"];
  }

  /** The constant name tried for `controllerName` in `namespace`. */
  function CandidateName(namespace: string, controllerName: string, inf: Inflector): string
  {
    namespace + inf.camelize(controllerName) + "Controller"
  }

  /** The plural and then the singular controller name of model `klass`. */
  function ControllerNames(klass: string, inf: Inflector): seq<string>
  {
    var plural := inf.pluralize(inf.underscore(klass));
    [plural, inf.singularize(plural)]
  }

  /**
   * The constants tried, in order: the current namespace before the top
   * level, the plural name before the singular one. The two namespaced
   * candidates are the two top-level ones with the namespace in front.
   */
  function Candidates(ctx: Context, klass: string): (r: seq<string>)
    ensures |r| == 4
    ensures var inf := ctx.inflector;
            var plural := inf.pluralize(inf.underscore(klass));
            r[2] == inf.camelize(plural) + "Controller" &&
            r[3] == inf.camelize(inf.singularize(plural)) + "Controller"
    ensures r[0] == Namespace(ctx.controllerPath) + r[2] && r[1] == Namespace(ctx.controllerPath) + r[3]
  {
    var names := ControllerNames(klass, ctx.inflector);
    var ns := Namespace(ctx.controllerPath);
    [CandidateName(ns, names[0], ctx.inflector), CandidateName(ns, names[1], ctx.inflector),
     CandidateName("", names[0], ctx.inflector), CandidateName("", names[1], ctx.inflector)]
  }

  /** The position of the first name that exists, or `|names|` when none does. */
  function FirstPresent(names: seq<string>, constants: map<string, ControllerClass>): (i: nat)
    ensures i <= |names|
    ensures forall j :: 0 <= j < i ==> names[j] !in constants
    ensures i < |names| ==> names[i] in constants
    decreases |names|
  {
    if names == [] then 0
    else if names[0] in constants then 0
    else 1 + FirstPresent(names[1..], constants)
  }

  /** The verdict on the first controller that exists. */
  function Verdict(c: ControllerClass, klass: string): Lookup
  {
    if c.config.None? then ControllerNotFound(MissingActiveScaffold(c.name))
    else if c.config.value.model != klass then ControllerNotFound(WrongModel(c.name, klass))
    else Found(c)
  }

  /**
   * The lookup as a function of the candidates: the verdict on the first
   * one that exists, or `CouldNotFind` listing all of them. A controller it
   * returns uses the scaffold, for `klass`, and is one of the candidates.
   */
  function ControllerSearch(ctx: Context, klass: string): (r: Lookup)
    ensures r.Found? ==> r.controller.config.Some? && r.controller.config.value.model == klass
    ensures r.Found? ==> exists i :: 0 <= i < 4 && Candidates(ctx, klass)[i] in ctx.constants &&
                                     ctx.constants[Candidates(ctx, klass)[i]] == r.controller
  {
    var cands := Candidates(ctx, klass);
    var i := FirstPresent(cands, ctx.constants);
    if i == |cands| then ControllerNotFound(CouldNotFind(cands))
    else Verdict(ctx.constants[cands[i]], klass)
  }

  /**
   * The first candidate that exists decides: it is returned when it uses
   * the scaffold for `klass`, otherwise `ControllerNotFound` is raised.
   */
  lemma FirstExistingDecides(ctx: Context, klass: string, i: nat)
    requires i < 4 && Candidates(ctx, klass)[i] in ctx.constants
    requires forall j :: 0 <= j < i ==> Candidates(ctx, klass)[j] !in ctx.constants
    ensures var c := ctx.constants[Candidates(ctx, klass)[i]];
            ControllerSearch(ctx, klass) ==
              if c.config.None? then ControllerNotFound(MissingActiveScaffold(c.name))
              else if c.config.value.model != klass then ControllerNotFound(WrongModel(c.name, klass))
              else Found(c)
  {
  }

  /** When no candidate exists, `ControllerNotFound` is raised listing all four candidates in search order. */
  lemma NoCandidateExists(ctx: Context, klass: string)
    requires forall j :: 0 <= j < 4 ==> Candidates(ctx, klass)[j] !in ctx.constants
    ensures ControllerSearch(ctx, klass) == ControllerNotFound(CouldNotFind(Candidates(ctx, klass)))
  {
  }

  /** The message of that error names the four tried constants joined by " or ". */
  lemma CouldNotFindMessage(tried: seq<string>)
    requires |tried| == 4
    ensures Message(CouldNotFind(tried)) ==
              CouldNotFindPrefix + (tried[0] + TriedSeparator + tried[1] + TriedSeparator + tried[2] + TriedSeparator + tried[3])
  {
    JoinFour(tried[0], tried[1], tried[2], tried[3], TriedSeparator);
    assert tried == [tried[0], tried[1], tried[2], tried[3]];
  }

  /** Names that do not exist, raised for as `CouldNotFind`, are the only way to get one. */
  lemma CouldNotFindOnlyWhenNoneExists(ctx: Context, klass: string)
    ensures ControllerSearch(ctx, klass).ControllerNotFound? && ControllerSearch(ctx, klass).reason.CouldNotFind?
            <==> forall j :: 0 <= j < 4 ==> Candidates(ctx, klass)[j] !in ctx.constants
  {
  }

  /**
   * The texts raised for the first existing candidate: "X missing
   * ActiveScaffold" when it does not use the scaffold, "ActiveScaffold on X
   * is not for M model." when it is for another model, X being the
   * controller's name and M the requested model.
   */
  lemma FirstExistingMessages(ctx: Context, klass: string, i: nat)
    requires i < 4 && Candidates(ctx, klass)[i] in ctx.constants
    requires forall j :: 0 <= j < i ==> Candidates(ctx, klass)[j] !in ctx.constants
    ensures var c := ctx.constants[Candidates(ctx, klass)[i]];
            (c.config.None? ==>
               Message(ControllerSearch(ctx, klass).reason) == c.name + " missing ActiveScaffold") &&
            (c.config.Some? && c.config.value.model != klass ==>
               Message(ControllerSearch(ctx, klass).reason) == "ActiveScaffold on " + c.name + " is not for " + klass + " model.")
  {
    FirstExistingDecides(ctx, klass, i);
  }

  /**
   * Candidates after the first existing one are never tried: any other set
   * of constants that agrees on the candidates up to and including it gives
   * the same result.
   */
  lemma LaterCandidatesNotTried(ctx: Context, constants: map<string, ControllerClass>, klass: string, i: nat)
    requires i < 4 && Candidates(ctx, klass)[i] in ctx.constants
    requires forall j :: 0 <= j <= i ==>
               var n := Candidates(ctx, klass)[j];
               (n in ctx.constants <==> n in constants) &&
               (n in constants ==> ctx.constants[n] == constants[n])
    ensures ControllerSearch(ctx, klass) == ControllerSearch(ctx.(constants := constants), klass)
  {
  }

  /**
   * The search as `active_scaffold_controller_for` runs it: over the namespaces, then over the
   * plural and singular names, collecting the names that do not exist and
   * returning or raising on the first that does.
   */
  method ActiveScaffoldControllerFor(ctx: Context, klass: string) returns (r: Lookup)
    ensures r == ControllerSearch(ctx, klass)
  {
    ghost var cands := Candidates(ctx, klass);
    var namespaces := [Namespace(ctx.controllerPath), ""];
    var names := ControllerNames(klass, ctx.inflector);
    var errorMessage: seq<string> := [];
    for n := 0 to 2
      invariant errorMessage == cands[..2 * n]
      invariant forall j :: 0 <= j < 2 * n ==> cands[j] !in ctx.constants
    {
      for m := 0 to 2
        invariant errorMessage == cands[..2 * n + m]
        invariant forall j :: 0 <= j < 2 * n + m ==> cands[j] !in ctx.constants
      {
        var name := CandidateName(namespaces[n], names[m], ctx.inflector);
        assert name == cands[2 * n + m];
        if name !in ctx.constants {
          errorMessage := errorMessage + [name];
        } else {
          var controller := ctx.constants[name];
          assert FirstPresent(cands, ctx.constants) == 2 * n + m;
          if controller.config.None? {
            return ControllerNotFound(MissingActiveScaffold(controller.name));
          }
          if controller.config.value.model != klass {
            return ControllerNotFound(WrongModel(controller.name, klass));
          }
          return Found(controller);
        }
      }
    }
    assert FirstPresent(cands, ctx.constants) == 4;
    assert errorMessage == cands;
    r := ControllerNotFound(CouldNotFind(errorMessage));
  }
}
