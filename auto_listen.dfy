/**
 * `auto_listen_toolkit(base)`: the class decorator that installs an
 * instrumented forwarding wrapper on the decorated class for every public,
 * callable attribute of the base class that is neither a helper in
 * `EXCLUDED_METHODS` nor already defined by the decorated class itself.
 *
 * Reflection is reduced to what the decorator reads: the base class as a map
 * from every name `dir(base)` lists to what `getattr` finds there, each
 * function with its chain of `__wrapped__` layers; the decorated class as
 * the map `cls.__dict__`, which `setattr` updates.
 */
module AutoListen {
  import opened PyStrings
  import opened ToolkitListen

  /** Helpers that never get a wrapper. */
  const ExcludedMethods: set<string> := {
    "get_tools", "get_can_use_tools", "toolkit_name", "run_mcp_server",
    "model_dump", "model_dump_json", "dict", "json", "copy", "update"
  }

  /**
   * A function object: whether `iscoroutinefunction` holds of it, and the
   * function its `__wrapped__` attribute names, when it has one.
   */
  datatype Fn = Plain(isCoroutineFunction: bool) | Decorated(isCoroutineFunction: bool, wrapped: Fn)

  /** What `getattr(base, name)` finds: something `callable` or not. */
  datatype Attr = NotCallable | Callable(fn: Fn)

  /** `g` is `f` or lies below it on its `__wrapped__` chain. */
  ghost predicate Reaches(f: Fn, g: Fn)
    decreases f
  {
    f == g || (f.Decorated? && Reaches(f.wrapped, g))
  }

  /** The function at the bottom of the `__wrapped__` chain. */
  function Innermost(f: Fn): (u: Fn)
    ensures u.Plain? && Reaches(f, u)
  {
    if f.Decorated? then Innermost(f.wrapped) else f
  }

  /** The chain has one bottom: every undecorated function below `f` is `Innermost(f)`. */
  lemma {:induction false} InnermostUnique(f: Fn, g: Fn)
    requires Reaches(f, g) && g.Plain?
    ensures g == Innermost(f)
  {
    if f != g {
      InnermostUnique(f.wrapped, g);
    }
  }

  /** The `while hasattr(unwrapped_method, '__wrapped__')` loop. */
  method Unwrap(f: Fn) returns (u: Fn)
    ensures u.Plain? && Reaches(f, u)
  {
    u := f;
    while u.Decorated?
      invariant Reaches(f, u)
      decreases u
    {
      ReachesStep(f, u);
      u := u.wrapped;
    }
  }

  lemma {:induction false} ReachesStep(f: Fn, g: Fn)
    requires Reaches(f, g) && g.Decorated?
    ensures Reaches(f, g.wrapped)
    decreases f
  {
    if f != g {
      ReachesStep(f.wrapped, g);
    }
  }

  predicate IsPublic(name: string)
  {
    !StartsWith(name, "_")
  }

  /** `base_methods`: the public callable attributes of the base that are not excluded. */
  function BaseMethods(base: map<string, Attr>): (m: map<string, Fn>)
    ensures forall n :: n in m <==> n in base && IsPublic(n) && n !in ExcludedMethods && base[n].Callable?
    ensures forall n :: n in m ==> m[n] == base[n].fn
  {
    map n | n in base && IsPublic(n) && n !in ExcludedMethods && base[n].Callable? :: base[n].fn
  }

  /**
   * An installed member: the forwarding shim, named `name` and reported as
   * `MethodName(name)`, decorated by `listen_toolkit` without formatters in
   * the variant its `iscoroutinefunction` selects.
   */
  datatype Wrapper = Wrapper(name: string, variant: Variant)

  /** An entry of `cls.__dict__`: defined by the class body, or installed here. */
  datatype Member = Own | Installed(wrapper: Wrapper)

  /** The wrapper installed for a base method: async exactly when its innermost function is a coroutine function. */
  function WrapperFor(name: string, f: Fn): (w: Wrapper)
    ensures w.name == name
    ensures w.variant == Async <==> Innermost(f).isCoroutineFunction
  {
    Wrapper(name, VariantOf(Innermost(f).isCoroutineFunction))
  }

  /** The members the decorator adds to a class whose own names are `own`. */
  function Installations(base: map<string, Attr>, own: set<string>): (m: map<string, Member>)
    ensures forall n :: n in m <==>
              n in base && IsPublic(n) && base[n].Callable? && n !in ExcludedMethods && n !in own
    ensures forall n :: n in m ==> m[n] == Installed(WrapperFor(n, base[n].fn))
  {
    var bm := BaseMethods(base);
    map n | n in bm && n !in own :: Installed(WrapperFor(n, bm[n]))
  }

  /** Once every installed name is in `cls.__dict__`, decorating again installs nothing. */
  lemma ReapplyInstallsNothing(base: map<string, Attr>, own: set<string>)
    ensures Installations(base, own + Installations(base, own).Keys) == map[]
  {
    var again := Installations(base, own + Installations(base, own).Keys);
    assert again.Keys == {};
  }

  /** A decorated class: `cls.__dict__`. */
  class ToolkitClass {
    var members: map<string, Member>

    /** A class whose body defines the names in `own`. */
    constructor(own: set<string>)
      ensures members == map n | n in own :: Own
    {
      members := map n | n in own :: Own;
    }
  }

  /** `class_decorator(cls)`: the two loops of `auto_listen_toolkit`. */
  method ApplyAutoListen(base: map<string, Attr>, cls: ToolkitClass)
    modifies cls
    ensures cls.members == old(cls.members) + Installations(base, old(cls.members).Keys)
  {
    // collect base_methods
    var baseMethods: map<string, Fn> := map[];
    var names := base.Keys;
    while names != {}
      invariant names <= base.Keys
      invariant forall n :: n in baseMethods <==>
                  n in base && n !in names && IsPublic(n) && n !in ExcludedMethods && base[n].Callable?
      invariant forall n :: n in baseMethods ==> baseMethods[n] == base[n].fn
      decreases names
    {
      var name :| name in names;
      if IsPublic(name) && name !in ExcludedMethods {
        var attr := base[name];
        if attr.Callable? {
          baseMethods := baseMethods[name := attr.fn];
        }
      }
      names := names - {name};
    }
    assert baseMethods == BaseMethods(base);

    // install a wrapper for each one the class does not define
    ghost var own := cls.members.Keys;
    ghost var installs := Installations(base, own);
    var pending := baseMethods.Keys;
    while pending != {}
      invariant pending <= baseMethods.Keys
      invariant cls.members.Keys == own + (installs.Keys - pending)
      invariant forall n :: n in cls.members ==>
                  cls.members[n] == if n in installs && n !in pending then installs[n] else old(cls.members)[n]
      decreases pending
    {
      var name :| name in pending;
      if name !in cls.members {
        var unwrapped := Unwrap(baseMethods[name]);
        InnermostUnique(baseMethods[name], unwrapped);
        var variant := VariantOf(unwrapped.isCoroutineFunction);
        cls.members := cls.members[name := Installed(Wrapper(name, variant))];
      }
      pending := pending - {name};
    }
    assert cls.members == old(cls.members) + installs;
  }
}
