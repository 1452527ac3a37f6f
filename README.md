# swigpy: option resolution and module pipelines, modelled in Dafny

`swigpy` is an SCons tool for building Python extension modules with SWIG.
A call `env.SwigPyModule('pkg.mod', **kw)` declares two build steps: the
SWIG step turns the interface file `pkg/mod.i` into a C or C++ source, and
`SharedLibrary` links that source into the extension `pkg/mod`. Both steps
get an option map built from seventeen SCons variables and their `SWIGPY_`
twins. This keeps the extension's compiler and linker settings apart from
the environment's plain ones. A second file, `pyconf.py`, works out where the
Python headers and library are.

The project has four modules:

- `PyText` (`pytext.dfy`) holds the Python string operations the tool uses:
  `str.split`, the inverse `sep.join`, `startswith`, `endswith` and
  substring `in`. It proves that split and join are inverses.
- `PosixPath` (`posixpath.dfy`) is `os.path.join` with the POSIX rules. An
  absolute piece restarts the path, and a `/` goes in only where one is
  missing.
- `SwigPy` (`swigpy.dfy`) models `__init__.py`. It covers the option map
  (`_prepare_kw2`), one module's pipeline (`_SwigPyModuleImpl`), a list of
  modules (`_SwigPyModule`) and the defaults that `generate` seeds.
- `PyConf` (`pyconf.dfy`) models `pyconf.py`. The `sysconfig` and `sys`
  values are parameters.

Modelling choices:

- Environments and keyword arguments are `map<string, Value>`. A `Value` is
  one of `Null` (Python `None`), `Str`, `StrList` or `Hook` (a callable from
  name segments to a path).
- The SCons builders `CFile`, `CXXFile` and `SharedLibrary` stay abstract. They
  are function parameters (`Builders`) that map environment, target, source
  and overrides to the nodes they declare.
- A composition returns a `Pipeline`. It holds the builder calls in order
  (builder name, target, source, overrides) and the flattened node list. This
  makes "which builder is invoked, with what" something the contracts can
  state.
- `_prepare_kw2` fills its dictionary in a loop, so it is the method
  `PrepareKw2` with a `for` loop. That method is proved equal to the
  reference function `EffectiveOptions`, and the pure functions use
  `EffectiveOptions`.
- `generate` changes the environment in place, so it is a method of the
  class `Environment`. Its variables are the field `vars`.
- Python exceptions the code can raise become `Err` values:
  - a hook value that is not callable (`TypeError`);
  - `SWIGFLAGS` that is neither a list nor a string, for `'-c++' in …`
    (`TypeError`);
  - a generation step that declares no node, for `c_target[0]`
    (`IndexError`).
- A string-valued `SWIGFLAGS` is searched as a substring, as Python's `in`
  does.

Behaviour of the code worth stating, and what it does not do:

- The code picks, in order, call-time `SWIGPY_<key>`, call-time `<key>`, then
  the environment's `SWIGPY_<key>`. It never reads the environment's plain
  `<key>` when building the option map (`__init__.py:49-50`).
- The path hooks are never taken from call-time keywords, because the option map
  only holds the seventeen plain names.
- There is no builder registry and no save/restore action wrapper. Nothing
  special happens for `LIBPREFIXES`/`LIBSUFFIXES`. An unknown platform gives
  `LIBPL` and raises no error.
- After `generate` has seeded `SWIGPY_SWIGFLAGS`, a plain environment
  `SWIGFLAGS = ['-c++']` no longer changes routing (`SeededFlagsShadowPlain`).

## Model

| member | source | states |
|---|---|---|
| `SwigPy.PrepareKw2` | __init__.py:29-53 | the loop over the seventeen names builds exactly the reference option map: a key is present iff its chosen value is not `None`, bound to that value |
| `SwigPy.EffectiveOptionsKeys` | __init__.py:30-52 | every key of the option map is one of the seventeen plain names, and none starts with `SWIGPY_` |
| `SwigPy.KeysUnprefixed` | __init__.py:30-46 | none of the seventeen shadowed names starts with `SWIGPY_` |
| `SwigPy.OptionPrecedence` | __init__.py:49-52 | for each shadowed key: call-time `SWIGPY_<key>` wins, then call-time `<key>`, then the environment's `SWIGPY_<key>`; a `None` at the chosen level drops the key; with none of the three the key is absent |
| `SwigPy.PlainEnvIgnored` | __init__.py:50 | changing any environment variable that is not `SWIGPY_`-prefixed leaves the option map unchanged |
| `SwigPy.UnshadowedKwIgnored` | __init__.py:48-52 | a call-time variable outside the seventeen names and their `SWIGPY_` forms has no effect on the option map |
| `SwigPy.HookKeysNotShadowed` | __init__.py:61-69 | the three hook variables are not among the seventeen shadowed names |
| `SwigPy.HookFromEnvOrDefault` | __init__.py:61-69 | each path hook is the environment's value if it has one, else the built-in default, whatever the call-time keywords hold |
| `SwigPy.CallTimeHookIgnored` | __init__.py:58-69 | passing a path hook as a call-time keyword leaves the whole composition unchanged |
| `SwigPy.DefaultModulePaths` | __init__.py:60-72 | with no hooks in the environment the paths are `join(segments) + '.i'`, `join(segments)` and `join(segments)`, with the segments from splitting the name at '.' |
| `SwigPy.DottedNameToPath` | __init__.py:60-72 | for segments that are non-empty and hold no '/', the default paths are the dotted name with each '.' replaced by '/', plus `.i` for the interface file |
| `SwigPy.PkgModExample` | __init__.py:60-72 | `pkg.mod` maps to `pkg/mod.i`, `pkg/mod`, `pkg/mod` |
| `SwigPy.FlagsPrecedence` | __init__.py:73 | the flags used for routing are the chosen shadowed `SWIGFLAGS` if any, else the environment's plain `SWIGFLAGS`, else the empty list |
| `SwigPy.NoFlagsMeansC` | __init__.py:73-76 | with no flags anywhere, C++ is not requested and a successful composition's generation call is `CFile` |
| `SwigPy.PlainFlagsFallback` | __init__.py:73-74 | with no shadowed flags chosen, a plain environment `SWIGFLAGS = ['-c++']` requests C++ and a successful composition's generation call is `CXXFile` |
| `SwigPy.StringFlagsSearched` | __init__.py:73 | a string-valued flag variable is searched as text, so `"-python -c++"` asks for C++ |
| `SwigPy.SeededFlagsShadowPlain` | __init__.py:88-90 | once `generate` has seeded `SWIGPY_SWIGFLAGS`, routing uses it (no `-c++`) and ignores a plain `SWIGFLAGS` |
| `SwigPy.ModuleImpl` | __init__.py:55-78 | a successful composition makes exactly two calls: a generation step (`CFile` or `CXXFile`), then `SharedLibrary`, both given the option map; the link's source is the first generated node; the nodes are the generated ones followed by the library's |
| `SwigPy.ModuleRouting` | __init__.py:73-77 | the generation step is `CXXFile` iff the effective flags hold `-c++` and `CFile` otherwise; it targets the generated-source path from the interface file; the link targets the library path |
| `SwigPy.UnusedGeneratorIrrelevant` | __init__.py:73-76 | the builder that is not chosen is never used: replacing it does not change the result |
| `SwigPy.ModuleErrors` | __init__.py:70-77 | a non-callable hook, non-container flags or an empty generation result makes the composition fail with that error; nothing else does |
| `SwigPy.HelloCxxExample` | test/system/sconstool/swigpy/swigpy_example1.py:80-82 | with `-c++` appended to the seeded `SWIGPY_SWIGFLAGS`, the paths of `hello` are `hello.i`, `hello`, `hello`, and a successful composition calls `CXXFile` with source `hello.i` and target `hello`, then `SharedLibrary` with target `hello` |
| `SwigPy.ModuleAll` | __init__.py:83 | a list of names composes successfully iff every name does, with two calls per name |
| `SwigPy.ModuleAllAppend` | __init__.py:80-83 | composing `xs + ys` gives the results for `xs` and then for `ys`, concatenated in order; the first error wins |
| `SwigPy.SwigPyModule` | __init__.py:80-83 | a single (non-list) name composes exactly as that one module; a list composes name by name as `ModuleAll` |
| `SwigPy.ModuleAllSingleton` | __init__.py:82-83 | a one-element list composes exactly as that one module |
| `SwigPy.TwoNames` | __init__.py:82-83 | `["a.b", "c.d"]` composes as `a.b` and then `c.d`, each composed independently |
| `SwigPy.WithDefaultsKeeps` | __init__.py:88-90 | seeding adds exactly the missing default keys and keeps every existing value |
| `SwigPy.WithDefaultsIdempotent` | __init__.py:88-90 | seeding a second time changes nothing |
| `SwigPy.Environment.SetDefault` | __init__.py:88-90 | the environment's new variables are the old ones with each absent default added |
| `SwigPy.Environment.Generate` | __init__.py:86-90 | `generate` adds `SWIGPY_CPPPATH = [include dir]`, `SWIGPY_SHLIBPREFIX = '_'` and `SWIGPY_SWIGFLAGS = ['-python', '-builtin']` only where absent and leaves every existing variable unchanged |
| `PyText.Split` | __init__.py:60 | no piece of `s.split(c)` contains `c`, and the result is never empty |
| `PyText.SplitJoinInverse` | __init__.py:60 | joining the pieces of a split with the same separator gives back the string |
| `PyText.JoinSplitInverse` | __init__.py:60 | splitting a join whose pieces hold no separator gives back the pieces |
| `PyText.SplitThenJoin` | __init__.py:60-63 | splitting at '.' and joining with '/' replaces every '.' by '/' |
| `PosixPath.JoinPlain` | __init__.py:63 | with non-empty pieces holding no '/', `os.path.join(*parts)` is `'/'.join(parts)` |
| `PosixPath.AbsolutePieceRestarts` | __init__.py:63 | an absolute piece discards the path joined before it |
| `PyConf.PythonIncPath` | pyconf.py:28-29 | the header directory is `INCLUDEPY` unchanged, `None` when the variable is missing |
| `PyConf.LibSoFileLength` | pyconf.py:33-34 | a name that starts with `lib` and ends with `.so` has at least six characters, so `[3:-3]` is well defined |
| `PyConf.PythonLibName` | pyconf.py:31-35 | for `LDLIBRARY` of the shape `lib….so` the result `r` satisfies `"lib" + r + ".so" == LDLIBRARY` and has length `|LDLIBRARY| - 6`; for `None`, empty or any other shape it is `"python" + str(VERSION)` |
| `PyConf.LibNameInverse` | pyconf.py:31-34 | stripping `lib`/`.so` inverts adding them: `LDLIBRARY = "lib" + s + ".so"` gives `s` |
| `PyConf.PythonLibDir` | pyconf.py:37-47 | on `win32`/`win-amd64` the result is `join(base, 'libs')`, with base `sys.real_prefix` if defined else `sys.prefix`; any other platform gives `LIBPL`, without error |
| `PyConf.WindowsLibDir` | pyconf.py:39-46 | on Windows with an ordinary base path the directory is `<base>/libs`, with the separator '/' of the path model |
| `PyConf.GetPyConfig` | pyconf.py:49-52 | the map has exactly the keys `SWIGPY_PYTHONINCDIR`, `SWIGPY_PYTHONLIBDIR`, `SWIGPY_PYTHONLIB`, bound to `INCLUDEPY` unchanged, the library directory and the library name |

## Left out

- The behaviour of the SCons builders `CFile`, `CXXFile` and `SharedLibrary` (emitters, suffixes, the dependency graph): they are abstract function parameters.
- `SCons.Util.flatten` beyond list concatenation: builder results are flat node lists.
- `env.AddMethod(_SwigPyModule, 'SwigPyModule')` (`__init__.py:92`): the function `SwigPy.SwigPyModule` stands for the method it installs.
- `exists(env)`: it always returns 1 and is not part of this model.
- The unused `shlib_prefix` lookup (`__init__.py:59`): it has no observable effect.
- `sysconfig`, `distutils.sysconfig` and `sys` queries: their answers are parameters (`SysConfig`, `SysInfo`, the `pythonInc` argument of `Generate`).
- The diagnostic `sys.stdout.write` lines and the JSON-printing `__main__` block of `pyconf.py`: output only.
- `PyConf.PythonLibDir` and `PyConf.WindowsLibDir`: `os.path.join` is modelled with the POSIX rules and '/' only; on Windows Python uses `ntpath`, which gives `<base>\libs` and has its own drive-letter rules.
- `SwigPy.ModuleImpl`: when the generation step returns no node, Python raises only after `CFile`/`CXXFile` has already declared its (empty) result. The model returns just the error, without that call.
- `SwigPy.ModuleAll`: when a later name fails, the nodes already declared for earlier names stay in the SCons graph. The model returns just the first error.
- Values of other Python types (numbers, tuples, non-string list items) in the environment: `Value` covers `None`, strings, string lists and callables.
- A module-name argument that is neither a string nor a list (a tuple, a number): Python wraps it as one name and then `modname.split('.')` raises `AttributeError`; `ModName` covers only a string or a list of strings.
