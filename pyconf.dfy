/** Build-configuration defaults for the Python extension: the header
    directory, the library name and the library directory. The values the
    tool asks `sysconfig` and `sys` for are parameters here. */
module PyConf {
  import opened PyText
  import PosixPath

  /** The `sysconfig` answers the tool uses; a missing variable is `None`. */
  datatype SysConfig = SysConfig(
    includePy: Option<string>,   // INCLUDEPY
    ldLibrary: Option<string>,   // LDLIBRARY
    version: Option<string>,     // VERSION
    libPl: Option<string>,       // LIBPL
    platform: string)            // sysconfig.get_platform()

  /** `sys.prefix`, and `sys.real_prefix` when the interpreter defines it. */
  datatype SysInfo = SysInfo(prefix: string, realPrefix: Option<string>)

  const WindowsPlatforms: seq<string> := ["win32", "win-amd64"]

  /** `python_inc_path()`: `INCLUDEPY` as it is. */
  function PythonIncPath(cfg: SysConfig): (r: Option<string>)
    ensures r == cfg.includePy
  {
    cfg.includePy
  }

  /** `str(v)` for a configuration value that may be `None`. */
  function PyStr(v: Option<string>): string
  {
    match v
    case None => "None"
    case Some(s) => s
  }

  /** The shape `lib<name>.so`. */
  predicate IsLibSoFile(s: string)
  {
    StartsWith(s, "lib") && EndsWith(s, ".so")
  }

  /** The prefix and suffix cannot overlap, so `s[3:-3]` is well defined. */
  lemma LibSoFileLength(s: string)
    requires IsLibSoFile(s)
    ensures |s| >= 6
  {
    assert s[|s| - 3] == '.' by {
      assert s[|s| - 3..][0] == ".so"[0];
    }
    assert forall i :: 0 <= i < 3 ==> s[i] != '.' by {
      assert forall i :: 0 <= i < 3 ==> s[i] == s[..3][i];
    }
  }

  function PythonLibName(ldLibrary: Option<string>, version: Option<string>): (r: string)
    ensures ldLibrary.Some? && IsLibSoFile(ldLibrary.value) ==>
              "lib" + r + ".so" == ldLibrary.value && |r| == |ldLibrary.value| - 6
    ensures !(ldLibrary.Some? && IsLibSoFile(ldLibrary.value)) ==> r == "python" + PyStr(version)
  {
    if ldLibrary.Some? && ldLibrary.value != "" && IsLibSoFile(ldLibrary.value) then
      var libfile := ldLibrary.value;
      LibSoFileLength(libfile);
      assert libfile == libfile[..3] + libfile[3..|libfile| - 3] + libfile[|libfile| - 3..];
      libfile[3..|libfile| - 3]
    else
      "python" + PyStr(version)
  }

  /** Stripping `lib` and `.so` is an exact inverse of adding them. */
  lemma LibNameInverse(name: string, version: Option<string>)
    ensures PythonLibName(Some("lib" + name + ".so"), version) == name
  {
  }

  /** `sys.real_prefix` if defined, else `sys.prefix`. */
  function InstallBase(info: SysInfo): string
  {
    match info.realPrefix
    case Some(p) => p
    case None => info.prefix
  }

  function PythonLibDir(cfg: SysConfig, info: SysInfo): (r: Option<string>)
    ensures cfg.platform in WindowsPlatforms ==>
              r == Some(PosixPath.Join([InstallBase(info), "libs"]))
    ensures cfg.platform !in WindowsPlatforms ==> r == cfg.libPl
  {
    if cfg.platform in WindowsPlatforms then
      Some(PosixPath.Join([InstallBase(info), "libs"]))
    else
      cfg.libPl
  }

  /** On Windows the directory is `<base>/libs`, for an ordinary base path. */
  lemma WindowsLibDir(cfg: SysConfig, info: SysInfo)
    requires cfg.platform == "win32" || cfg.platform == "win-amd64"
    requires InstallBase(info) != "" && !EndsWith(InstallBase(info), "/")
    ensures PythonLibDir(cfg, info) == Some(InstallBase(info) + "/libs")
  {
    var parts: Parts := [InstallBase(info), "libs"];
    assert parts[1..] == ["libs"] && ["libs"][1..] == [];
    assert !StartsWith("libs", "/");
    assert PosixPath.JoinStep(InstallBase(info), "libs") == InstallBase(info) + "/libs";
    assert PosixPath.JoinFrom(InstallBase(info), ["libs"]) == PosixPath.JoinFrom(InstallBase(info) + "/libs", []);
  }

  function GetPyConfig(cfg: SysConfig, info: SysInfo): (r: map<string, Option<string>>)
    ensures r.Keys == {"SWIGPY_PYTHONINCDIR", "SWIGPY_PYTHONLIBDIR", "SWIGPY_PYTHONLIB"}
    ensures r["SWIGPY_PYTHONINCDIR"] == cfg.includePy
    ensures r["SWIGPY_PYTHONLIBDIR"] == PythonLibDir(cfg, info)
    ensures r["SWIGPY_PYTHONLIB"] == Some(PythonLibName(cfg.ldLibrary, cfg.version))
  {
    map["SWIGPY_PYTHONINCDIR" := PythonIncPath(cfg),
        "SWIGPY_PYTHONLIBDIR" := PythonLibDir(cfg, info),
        "SWIGPY_PYTHONLIB" := Some(PythonLibName(cfg.ldLibrary, cfg.version))]
  }
}
