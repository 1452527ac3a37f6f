/** The `swigpy` SCons tool: effective options for a Python extension
    module, and the composition of its two build steps (SWIG source
    generation, shared-library link) from a dotted module name.

    An SCons construction environment and the call-time keyword arguments
    are both maps from variable names to values. The builders `CFile`,
    `CXXFile` and `SharedLibrary` are SCons's own and stay abstract: they
    are given as functions from (environment, target, source, overrides)
    to the nodes they declare. */
module SwigPy {
  import opened PyText
  import PosixPath

  /** A construction variable: Python `None`, a string, a list of strings,
      or a callable path-mapping hook. */
  datatype Value = Null | Str(s: string) | StrList(items: seq<string>) | Hook(apply: Parts -> string)

  type Env = map<string, Value>

  /** The Python exceptions the composition can raise. */
  datatype Error =
    | NotCallable(key: string)      // TypeError: the hook value is not callable
    | NotContainer(key: string)     // TypeError: `'-c++' in v` on a non-container
    | NoGeneratedNode               // IndexError: `c_target[0]` on an empty node list

  datatype Result<+T> = Ok(value: T) | Err(error: Error) {
    predicate IsFailure() { Err? }
    function PropagateFailure<U>(): Result<U>
      requires Err?
    {
      Err(error)
    }
    function Extract(): T
      requires Ok?
    {
      value
    }
  }

  const Prefix := "SWIGPY_"

  /** The variables the tool shadows with a `SWIGPY_` twin. */
  const Keys2: seq<string> :=
    [ "SWIG", "SWIGVERSION", "SWIGFLAGS", "SWIGDIRECTORSUFFIX", "SWIGCFILESUFFIX"
    , "SWIGCXXFILESUFFIX", "SWIGPATH", "SWIGINCPREFIX", "SWIGINCSUFFIX", "SWIGCOM"
    , "CPPPATH", "SHLIBPREFIX", "CFLAGS", "CXXFLAGS", "LIBS", "LIBPATH", "LDFLAGS" ]

  /** Python's `m.get(key, default)`. */
  function Get(m: Env, key: string, default: Value): Value
  {
    if key in m then m[key] else default
  }

  // ---------------------------------------------------------------------
  // Effective options
  // ---------------------------------------------------------------------

  /** The value picked for `key`: call-time `SWIGPY_<key>`, else call-time
      `<key>`, else the environment's `SWIGPY_<key>`, else `None`. */
  function Chosen(env: Env, kw: Env, key: string): Value
  {
    Get(kw, Prefix + key, Get(kw, key, Get(env, Prefix + key, Null)))
  }

  /** Reference definition of the option map the tool builds. */
  function EffectiveOptions(env: Env, kw: Env): Env
  {
    map k | k in Keys2 && !Chosen(env, kw, k).Null? :: Chosen(env, kw, k)
  }

  /** The loop that fills the option map, one shadowed key at a time. */
  method PrepareKw2(env: Env, kw: Env) returns (kw2: Env)
    ensures kw2 == EffectiveOptions(env, kw)
  {
    kw2 := map[];
    for i := 0 to |Keys2|
      invariant forall k :: k in kw2 <==> k in Keys2[..i] && !Chosen(env, kw, k).Null?
      invariant forall k :: k in kw2 ==> kw2[k] == Chosen(env, kw, k)
    {
      var key := Keys2[i];
      var swigpyKey := Prefix + key;
      var val := Get(kw, swigpyKey, Get(kw, key, Get(env, swigpyKey, Null)));
      if !val.Null? {
        kw2 := kw2[key := val];
      }
      assert Keys2[..i + 1] == Keys2[..i] + [key];
    }
    assert Keys2[..|Keys2|] == Keys2;
  }

  lemma KeysUnprefixed()
    ensures forall i :: 0 <= i < |Keys2| ==> !StartsWith(Keys2[i], Prefix)
  {
    forall i | 0 <= i < |Keys2|
      ensures !StartsWith(Keys2[i], Prefix)
    {
      var k := Keys2[i];
      assert |k| < |Prefix| || k[..|Prefix|][5] != Prefix[5];
    }
  }

  /** Only the seventeen plain names can appear; no `SWIGPY_` name does. */
  lemma EffectiveOptionsKeys(env: Env, kw: Env)
    ensures forall k :: k in EffectiveOptions(env, kw) ==> k in Keys2 && !StartsWith(k, Prefix)
  {
    KeysUnprefixed();
  }

  /** The precedence, stated on the two input maps: for a shadowed key, the
      call-time `SWIGPY_` form wins, then the call-time plain form, then the
      environment's `SWIGPY_` form; a `None` drops the key. */
  lemma OptionPrecedence(env: Env, kw: Env, k: string)
    requires k in Keys2
    ensures var kw2 := EffectiveOptions(env, kw);
      && (Prefix + k in kw ==>
            (k in kw2 <==> !kw[Prefix + k].Null?) && (k in kw2 ==> kw2[k] == kw[Prefix + k]))
      && (Prefix + k !in kw && k in kw ==>
            (k in kw2 <==> !kw[k].Null?) && (k in kw2 ==> kw2[k] == kw[k]))
      && (Prefix + k !in kw && k !in kw && Prefix + k in env ==>
            (k in kw2 <==> !env[Prefix + k].Null?) && (k in kw2 ==> kw2[k] == env[Prefix + k]))
      && (Prefix + k !in kw && k !in kw && Prefix + k !in env ==> k !in kw2)
  {
  }

  /** The environment's plain variables are never consulted. */
  lemma PlainEnvIgnored(env: Env, kw: Env, k: string, v: Value)
    requires !StartsWith(k, Prefix)
    ensures EffectiveOptions(env[k := v], kw) == EffectiveOptions(env, kw)
  {
  }

  /** A call-time variable outside the seventeen names and their `SWIGPY_`
      forms has no effect on the options. */
  lemma UnshadowedKwIgnored(env: Env, kw: Env, k: string, v: Value)
    requires k !in Keys2
    requires forall i :: 0 <= i < |Keys2| ==> k != Prefix + Keys2[i]
    ensures EffectiveOptions(env, kw[k := v]) == EffectiveOptions(env, kw)
  {
  }

  // ---------------------------------------------------------------------
  // Path-mapping hooks
  // ---------------------------------------------------------------------

  const M2SwigFile := "SWIGPY_M2SWIGFILE"
  const M2CFile := "SWIGPY_M2CFILE"
  const M2ShlibFile := "SWIGPY_M2SHLIBFILE"

  /** Default hook for the interface file: `os.path.join(*parts) + '.i'`. */
  function DefaultSwigFile(parts: Parts): string
  {
    PosixPath.Join(parts) + ".i"
  }

  /** Default hook for the generated source and the library: `os.path.join(*parts)`. */
  function DefaultStem(parts: Parts): string
  {
    PosixPath.Join(parts)
  }

  /** `kw2.get(key, env.get(key, default))`. */
  function ResolveHook(env: Env, kw2: Env, key: string, default: Parts -> string): Value
  {
    Get(kw2, key, Get(env, key, Hook(default)))
  }

  /** Calling the resolved hook on the module's name segments. */
  function ApplyHook(h: Value, key: string, parts: Parts): Result<string>
  {
    match h
    case Hook(f) => Ok(f(parts))
    case _ => Err(NotCallable(key))
  }

  lemma HookKeysNotShadowed()
    ensures M2SwigFile !in Keys2 && M2CFile !in Keys2 && M2ShlibFile !in Keys2
  {
  }

  /** Hooks never come from the call-time options: each is the environment's
      value, or the default. */
  lemma HookFromEnvOrDefault(env: Env, kw: Env, key: string, default: Parts -> string)
    requires key == M2SwigFile || key == M2CFile || key == M2ShlibFile
    ensures ResolveHook(env, EffectiveOptions(env, kw), key, default)
         == (if key in env then env[key] else Hook(default))
  {
  }

  // ---------------------------------------------------------------------
  // Builder routing
  // ---------------------------------------------------------------------

  /** `kw2.get('SWIGFLAGS', env.get('SWIGFLAGS', []))`. */
  function EffectiveFlags(env: Env, kw2: Env): Value
  {
    Get(kw2, "SWIGFLAGS", Get(env, "SWIGFLAGS", StrList([])))
  }

  /** Python's `needle in v`: list membership, substring test on a string,
      a TypeError on anything else. */
  function PyIn(needle: string, v: Value, key: string): Result<bool>
  {
    match v
    case StrList(xs) => Ok(needle in xs)
    case Str(s) => Ok(Contains(s, needle))
    case _ => Err(NotContainer(key))
  }

  /** The flags consulted for routing, seen from the inputs: the chosen
      shadowed value when there is one, else the environment's plain
      `SWIGFLAGS`, else the empty list. */
  lemma FlagsPrecedence(env: Env, kw: Env)
    ensures EffectiveFlags(env, EffectiveOptions(env, kw))
         == (if !Chosen(env, kw, "SWIGFLAGS").Null? then Chosen(env, kw, "SWIGFLAGS")
             else Get(env, "SWIGFLAGS", StrList([])))
  {
  }

  datatype BuilderName = CFile | CXXFile | SharedLibrary

  /** One builder invocation: `env.<builder>(target, source, **overrides)`. */
  datatype Call = Call(builder: BuilderName, target: string, source: string, overrides: Env)

  type Builder = (Env, string, string, Env) -> seq<string>

  datatype Builders = Builders(cFile: Builder, cxxFile: Builder, sharedLibrary: Builder)

  /** The nodes that a builder invocation declares. */
  function Invoke(b: Builders, env: Env, c: Call): seq<string>
  {
    match c.builder
    case CFile => b.cFile(env, c.target, c.source, c.overrides)
    case CXXFile => b.cxxFile(env, c.target, c.source, c.overrides)
    case SharedLibrary => b.sharedLibrary(env, c.target, c.source, c.overrides)
  }

  /** What composing declares: the builder invocations in order, and the
      flattened list of nodes they return. */
  datatype Pipeline = Pipeline(calls: seq<Call>, nodes: seq<string>)

  /** Whether the effective flags ask for C++ (`'-c++' in flags`). */
  function WantsCxx(env: Env, kw: Env): Result<bool>
  {
    PyIn("-c++", EffectiveFlags(env, EffectiveOptions(env, kw)), "SWIGFLAGS")
  }

  /** The interface file, generated source and shared library paths, in
      that order, or the error that calling a hook raises. */
  function ModulePaths(env: Env, modname: string, kw: Env): Result<(string, string, string)>
  {
    var kw2 := EffectiveOptions(env, kw);
    var parts := Split(modname, '.');
    var swigFile :- ApplyHook(ResolveHook(env, kw2, M2SwigFile, DefaultSwigFile), M2SwigFile, parts);
    var cFile :- ApplyHook(ResolveHook(env, kw2, M2CFile, DefaultStem), M2CFile, parts);
    var shlibFile :- ApplyHook(ResolveHook(env, kw2, M2ShlibFile, DefaultStem), M2ShlibFile, parts);
    Ok((swigFile, cFile, shlibFile))
  }

  /** One module: generate the source from the interface file with `CXXFile`
      or `CFile`, then link the first generated node with `SharedLibrary`. */
  function ModuleImpl(env: Env, modname: string, kw: Env, b: Builders): (r: Result<Pipeline>)
    ensures r.Ok? ==>
      var p := r.value;
      && |p.calls| == 2
      && p.calls[0].builder != SharedLibrary
      && p.calls[1].builder == SharedLibrary
      && p.calls[0].overrides == p.calls[1].overrides == EffectiveOptions(env, kw)
      && |Invoke(b, env, p.calls[0])| > 0
      && p.nodes == Invoke(b, env, p.calls[0]) + Invoke(b, env, p.calls[1])
      && p.calls[1].source == Invoke(b, env, p.calls[0])[0] == p.nodes[0]
  {
    var paths :- ModulePaths(env, modname, kw);
    var cxx :- WantsCxx(env, kw);
    var kw2 := EffectiveOptions(env, kw);
    var genCall := Call(if cxx then CXXFile else CFile, paths.1, paths.0, kw2);
    var generated := Invoke(b, env, genCall);
    if |generated| == 0 then Err(NoGeneratedNode)
    else
      var libCall := Call(SharedLibrary, paths.2, generated[0], kw2);
      Ok(Pipeline([genCall, libCall], generated + Invoke(b, env, libCall)))
  }

  /** Routing: the generation step is `CXXFile` exactly when the effective
      flags hold `-c++`, with the generated source as target and the
      interface file as source; the link targets the library path. */
  lemma ModuleRouting(env: Env, modname: string, kw: Env, b: Builders)
    requires ModuleImpl(env, modname, kw, b).Ok?
    ensures ModulePaths(env, modname, kw).Ok? && WantsCxx(env, kw).Ok?
    ensures var p := ModuleImpl(env, modname, kw, b).value;
            var paths := ModulePaths(env, modname, kw).value;
      && (p.calls[0].builder == CXXFile <==> WantsCxx(env, kw).value)
      && (p.calls[0].builder == CFile <==> !WantsCxx(env, kw).value)
      && p.calls[0].target == paths.1 && p.calls[0].source == paths.0
      && p.calls[1].target == paths.2
  {
  }

  /** The builder that is not chosen is never used: replacing it changes
      nothing. */
  lemma UnusedGeneratorIrrelevant(env: Env, modname: string, kw: Env, b: Builders, other: Builder)
    ensures WantsCxx(env, kw) == Ok(true) ==>
              ModuleImpl(env, modname, kw, b.(cFile := other)) == ModuleImpl(env, modname, kw, b)
    ensures WantsCxx(env, kw) == Ok(false) ==>
              ModuleImpl(env, modname, kw, b.(cxxFile := other)) == ModuleImpl(env, modname, kw, b)
  {
  }

  /** The error paths: a hook that is not callable, flags that are not a
      container, and a generation step that declares no node. */
  lemma ModuleErrors(env: Env, modname: string, kw: Env, b: Builders)
    ensures ModulePaths(env, modname, kw).Err? ==>
              ModuleImpl(env, modname, kw, b) == Err(ModulePaths(env, modname, kw).error)
    ensures ModulePaths(env, modname, kw).Ok? && WantsCxx(env, kw).Err? ==>
              ModuleImpl(env, modname, kw, b) == Err(NotContainer("SWIGFLAGS"))
    ensures ModulePaths(env, modname, kw).Ok? && WantsCxx(env, kw).Ok? ==>
      var paths := ModulePaths(env, modname, kw).value;
      var gen := Call(if WantsCxx(env, kw).value then CXXFile else CFile, paths.1, paths.0,
                      EffectiveOptions(env, kw));
      (ModuleImpl(env, modname, kw, b).Err? <==> |Invoke(b, env, gen)| == 0)
      && (ModuleImpl(env, modname, kw, b).Err? ==> ModuleImpl(env, modname, kw, b) == Err(NoGeneratedNode))
  {
  }

  /** With no hooks in the environment the paths are the segments joined
      with '/', the interface file with `.i` appended. */
  lemma DefaultModulePaths(env: Env, modname: string, kw: Env)
    requires M2SwigFile !in env && M2CFile !in env && M2ShlibFile !in env
    ensures var stem := PosixPath.Join(Split(modname, '.'));
            ModulePaths(env, modname, kw) == Ok((stem + ".i", stem, stem))
  {
    var kw2 := EffectiveOptions(env, kw);
    HookFromEnvOrDefault(env, kw, M2SwigFile, DefaultSwigFile);
    HookFromEnvOrDefault(env, kw, M2CFile, DefaultStem);
    HookFromEnvOrDefault(env, kw, M2ShlibFile, DefaultStem);
  }

  /** For a dotted name whose segments are non-empty and hold no '/', the
      default paths are the name with every '.' turned into '/'. */
  lemma DottedNameToPath(env: Env, modname: string, kw: Env)
    requires M2SwigFile !in env && M2CFile !in env && M2ShlibFile !in env
    requires var parts := Split(modname, '.');
             forall i :: 0 <= i < |parts| ==> PosixPath.PlainPiece(parts[i])
    ensures var stem := Replace(modname, '.', '/');
            ModulePaths(env, modname, kw) == Ok((stem + ".i", stem, stem))
  {
    DefaultModulePaths(env, modname, kw);
    PosixPath.JoinPlain(Split(modname, '.'));
    SplitThenJoin(modname, '.', '/');
  }

  /** A hook passed at call time is ignored. */
  lemma CallTimeHookIgnored(env: Env, modname: string, kw: Env, b: Builders, key: string, v: Value)
    requires key == M2SwigFile || key == M2CFile || key == M2ShlibFile
    ensures ModuleImpl(env, modname, kw[key := v], b) == ModuleImpl(env, modname, kw, b)
  {
    HookKeysNotShadowed();
    forall i | 0 <= i < |Keys2|
      ensures key != Prefix + Keys2[i]
    {
      assert key[|Prefix|..] !in Keys2;
      assert (Prefix + Keys2[i])[|Prefix|..] == Keys2[i];
    }
    UnshadowedKwIgnored(env, kw, key, v);
  }

  /** Without flags anywhere, source generation goes to `CFile`. */
  lemma NoFlagsMeansC(env: Env, modname: string, kw: Env, b: Builders)
    requires "SWIGFLAGS" !in env && Prefix + "SWIGFLAGS" !in env
    requires "SWIGFLAGS" !in kw && Prefix + "SWIGFLAGS" !in kw
    ensures WantsCxx(env, kw) == Ok(false)
    ensures ModuleImpl(env, modname, kw, b).Ok? ==>
              ModuleImpl(env, modname, kw, b).value.calls[0].builder == CFile
  {
  }

  /** The plain `SWIGFLAGS` decides only when no shadowed value is chosen. */
  lemma PlainFlagsFallback(env: Env, modname: string, kw: Env, b: Builders)
    requires Chosen(env, kw, "SWIGFLAGS").Null?
    requires "SWIGFLAGS" in env && env["SWIGFLAGS"] == StrList(["-c++"])
    ensures WantsCxx(env, kw) == Ok(true)
    ensures ModuleImpl(env, modname, kw, b).Ok? ==>
              ModuleImpl(env, modname, kw, b).value.calls[0].builder == CXXFile
  {
  }

  /** Once the tool has seeded `SWIGPY_SWIGFLAGS`, a plain `SWIGFLAGS` in the
      environment no longer influences routing. */
  lemma SeededFlagsShadowPlain(vars: Env, pythonInc: string, kw: Env)
    requires Prefix + "SWIGFLAGS" !in vars
    requires "SWIGFLAGS" !in kw && Prefix + "SWIGFLAGS" !in kw
    ensures WantsCxx(WithDefaults(vars, ToolDefaults(pythonInc)), kw) == Ok(false)
  {
    var env := WithDefaults(vars, ToolDefaults(pythonInc));
    assert Prefix + "SWIGFLAGS" == "SWIGPY_SWIGFLAGS";
    WithDefaultsKeeps(vars, ToolDefaults(pythonInc));
    assert env[Prefix + "SWIGFLAGS"] == StrList(["-python", "-builtin"]);
    FlagsPrecedence(env, kw);
    assert "-c++" !in ["-python", "-builtin"];
  }

  /** A string flag value is searched as text. */
  lemma StringFlagsSearched(env: Env, kw: Env)
    requires "SWIGFLAGS" !in kw && Prefix + "SWIGFLAGS" !in kw
    requires Prefix + "SWIGFLAGS" in env && env[Prefix + "SWIGFLAGS"] == Str("-python -c++")
    ensures WantsCxx(env, kw) == Ok(true)
  {
    FlagsPrecedence(env, kw);
    var t := "-python -c++";
    assert StartsWith(t[8..], "-c++");
    ContainsAt(t, "-c++", 8);
  }

  /** `SwigPyModule('hello')` after `-c++` was appended to the seeded
      `SWIGPY_SWIGFLAGS`: the interface file `hello.i` is generated as C++
      into `hello`, and the library target is `hello`. */
  lemma HelloCxxExample(env: Env, kw: Env, b: Builders)
    requires M2SwigFile !in env && M2CFile !in env && M2ShlibFile !in env
    requires "SWIGFLAGS" !in kw && Prefix + "SWIGFLAGS" !in kw
    requires Prefix + "SWIGFLAGS" in env && env[Prefix + "SWIGFLAGS"] == StrList(["-python", "-builtin", "-c++"])
    ensures ModulePaths(env, "hello", kw) == Ok(("hello.i", "hello", "hello"))
    ensures WantsCxx(env, kw) == Ok(true)
    ensures ModuleImpl(env, "hello", kw, b).Ok? ==>
      var p := ModuleImpl(env, "hello", kw, b).value;
      && p.calls[0].builder == CXXFile && p.calls[0].source == "hello.i" && p.calls[0].target == "hello"
      && p.calls[1].builder == SharedLibrary && p.calls[1].target == "hello"
  {
    DefaultModulePaths(env, "hello", kw);
    var parts: Parts := ["hello"];
    JoinSplitInverse(parts, '.');
    assert SepJoin(parts, '.') == "hello";
    assert Split("hello", '.') == parts;
    assert PosixPath.Join(parts) == "hello";
    var stem := PosixPath.Join(Split("hello", '.'));
    assert ModulePaths(env, "hello", kw) == Ok((stem + ".i", stem, stem));
    assert stem + ".i" == "hello.i";
    FlagsPrecedence(env, kw);
    if ModuleImpl(env, "hello", kw, b).Ok? {
      ModuleRouting(env, "hello", kw, b);
    }
  }

  /** `pkg.mod` maps to `pkg/mod.i`, `pkg/mod` and `pkg/mod`. */
  lemma PkgModExample(env: Env, modname: string, kw: Env)
    requires M2SwigFile !in env && M2CFile !in env && M2ShlibFile !in env
    requires modname == "pkg.mod"
    ensures ModulePaths(env, modname, kw) == Ok(("pkg/mod.i", "pkg/mod", "pkg/mod"))
  {
    var parts: Parts := ["pkg", "mod"];
    assert Split(modname, '.') == parts by {
      JoinSplitInverse(parts, '.');
      assert SepJoin(parts, '.') == "pkg.mod";
    }
    assert PosixPath.Join(parts) == "pkg/mod" by {
      assert PosixPath.PlainPiece("pkg") && PosixPath.PlainPiece("mod");
      PosixPath.JoinPlain(parts);
      assert SepJoin(parts, '/') == "pkg/mod";
    }
    DefaultModulePaths(env, modname, kw);
    var stem := PosixPath.Join(Split(modname, '.'));
    assert stem == "pkg/mod";
    assert stem + ".i" == "pkg/mod.i";
  }

  // ---------------------------------------------------------------------
  // Several modules
  // ---------------------------------------------------------------------

  /** The module-name argument: one name, or a list of names. */
  datatype ModName = Single(name: string) | Names(names: seq<string>)

  /** A non-list argument is treated as a one-element list. */
  function AsList(modname: ModName): seq<string>
  {
    match modname
    case Single(n) => [n]
    case Names(ns) => ns
  }

  /** Appending the declarations of two compositions; the first error wins. */
  function Concat(r1: Result<Pipeline>, r2: Result<Pipeline>): Result<Pipeline>
  {
    match r1
    case Err(e) => Err(e)
    case Ok(p1) =>
      match r2
      case Err(e) => Err(e)
      case Ok(p2) => Ok(Pipeline(p1.calls + p2.calls, p1.nodes + p2.nodes))
  }

  function ModuleAll(env: Env, names: seq<string>, kw: Env, b: Builders): (r: Result<Pipeline>)
    ensures r.Ok? <==> forall i :: 0 <= i < |names| ==> ModuleImpl(env, names[i], kw, b).Ok?
    ensures r.Ok? ==> |r.value.calls| == 2 * |names|
    decreases |names|
  {
    if names == [] then Ok(Pipeline([], []))
    else Concat(ModuleImpl(env, names[0], kw, b), ModuleAll(env, names[1..], kw, b))
  }

  /** `env.SwigPyModule(modname, **kw)`: a single name composes as that one
      module, a list composes name by name. */
  function SwigPyModule(env: Env, modname: ModName, kw: Env, b: Builders): (r: Result<Pipeline>)
    ensures modname.Single? ==> r == ModuleImpl(env, modname.name, kw, b)
    ensures modname.Names? ==> r == ModuleAll(env, modname.names, kw, b)
  {
    if modname.Single? then ModuleAllSingleton(env, modname.name, kw, b); ModuleAll(env, AsList(modname), kw, b)
    else ModuleAll(env, AsList(modname), kw, b)
  }

  lemma ConcatAssoc(r1: Result<Pipeline>, r2: Result<Pipeline>, r3: Result<Pipeline>)
    ensures Concat(Concat(r1, r2), r3) == Concat(r1, Concat(r2, r3))
  {
    if r1.Ok? && r2.Ok? && r3.Ok? {
      assert (r1.value.calls + r2.value.calls) + r3.value.calls
          == r1.value.calls + (r2.value.calls + r3.value.calls);
      assert (r1.value.nodes + r2.value.nodes) + r3.value.nodes
          == r1.value.nodes + (r2.value.nodes + r3.value.nodes);
    }
  }

  /** Composing a list is composing its two halves independently and
      concatenating the results in order. */
  lemma {:induction false} ModuleAllAppend(env: Env, xs: seq<string>, ys: seq<string>, kw: Env, b: Builders)
    ensures ModuleAll(env, xs + ys, kw, b) == Concat(ModuleAll(env, xs, kw, b), ModuleAll(env, ys, kw, b))
    decreases |xs|
  {
    if xs == [] {
      assert xs + ys == ys;
      var r := ModuleAll(env, ys, kw, b);
      if r.Ok? {
        assert [] + r.value.calls == r.value.calls && [] + r.value.nodes == r.value.nodes;
      }
    } else {
      assert (xs + ys)[1..] == xs[1..] + ys;
      assert (xs + ys)[0] == xs[0];
      ModuleAllAppend(env, xs[1..], ys, kw, b);
      ConcatAssoc(ModuleImpl(env, xs[0], kw, b), ModuleAll(env, xs[1..], kw, b), ModuleAll(env, ys, kw, b));
    }
  }

  /** A one-element list composes exactly as that one module. */
  lemma ModuleAllSingleton(env: Env, name: string, kw: Env, b: Builders)
    ensures ModuleAll(env, [name], kw, b) == ModuleImpl(env, name, kw, b)
  {
    var r := ModuleImpl(env, name, kw, b);
    assert [name][1..] == [];
    assert ModuleAll(env, [name], kw, b) == Concat(r, Ok(Pipeline([], [])));
    if r.Ok? {
      assert r.value.calls + [] == r.value.calls && r.value.nodes + [] == r.value.nodes;
      assert Pipeline(r.value.calls, r.value.nodes) == r.value;
    }
  }

  /** Two names compose as the first, then the second. */
  lemma TwoNames(env: Env, n1: string, n2: string, kw: Env, b: Builders)
    ensures SwigPyModule(env, Names([n1, n2]), kw, b)
         == Concat(ModuleImpl(env, n1, kw, b), ModuleImpl(env, n2, kw, b))
  {
    ModuleAllAppend(env, [n1], [n2], kw, b);
    ModuleAllSingleton(env, n1, kw, b);
    ModuleAllSingleton(env, n2, kw, b);
  }

  // ---------------------------------------------------------------------
  // Tool set-up
  // ---------------------------------------------------------------------

  /** `SetDefault`: each given variable is set only where it is absent. */
  function WithDefaults(vars: Env, defaults: Env): (r: Env)
  {
    map k | k in vars.Keys + defaults.Keys :: if k in vars then vars[k] else defaults[k]
  }

  lemma WithDefaultsKeeps(vars: Env, defaults: Env)
    ensures var r := WithDefaults(vars, defaults);
      && r.Keys == vars.Keys + defaults.Keys
      && (forall k :: k in vars ==> r[k] == vars[k])
      && (forall k :: k in defaults && k !in vars ==> r[k] == defaults[k])
  {
  }

  lemma WithDefaultsIdempotent(vars: Env, defaults: Env)
    ensures WithDefaults(WithDefaults(vars, defaults), defaults) == WithDefaults(vars, defaults)
  {
  }

  /** The three defaults the tool seeds: the Python header directory as the
      include path, `_` as the library prefix, and `-python -builtin`. */
  function ToolDefaults(pythonInc: string): Env
  {
    map["SWIGPY_CPPPATH" := StrList([pythonInc]),
        "SWIGPY_SHLIBPREFIX" := Str("_"),
        "SWIGPY_SWIGFLAGS" := StrList(["-python", "-builtin"])]
  }

  /** A construction environment whose variables the tool updates. */
  class Environment {
    var vars: Env

    constructor (vars0: Env)
      ensures vars == vars0
    {
      vars := vars0;
    }

    method SetDefault(defaults: Env)
      modifies this
      ensures vars == WithDefaults(old(vars), defaults)
    {
      vars := WithDefaults(vars, defaults);
    }

    /** `generate(env)`, given `sysconfig.get_python_inc()`. */
    method Generate(pythonInc: string)
      modifies this
      ensures vars == WithDefaults(old(vars), ToolDefaults(pythonInc))
      ensures vars.Keys == old(vars).Keys + {"SWIGPY_CPPPATH", "SWIGPY_SHLIBPREFIX", "SWIGPY_SWIGFLAGS"}
      ensures forall k :: k in old(vars) ==> vars[k] == old(vars)[k]
    {
      SetDefault(ToolDefaults(pythonInc));
      WithDefaultsKeeps(old(vars), ToolDefaults(pythonInc));
      assert ToolDefaults(pythonInc).Keys == {"SWIGPY_CPPPATH", "SWIGPY_SHLIBPREFIX", "SWIGPY_SWIGFLAGS"};
    }
  }
}
