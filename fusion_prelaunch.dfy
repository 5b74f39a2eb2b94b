/** The Fusion pre-launch hook: choose the Python 3 home among the
    candidates listed in `FUSION_PYTHON3_HOME`, point the launch
    environment at it, and either copy the user's Fusion preferences into a
    managed profile folder or name the profile folder, then set the master
    preferences file. Environment lookups, the file system and the
    settings are inputs. */
module FusionPrelaunch {
  import opened Common

  const Python3HomeVar := "FUSION_PYTHON3_HOME"
  const Python36HomeVar := "FUSION16_PYTHON36_HOME"
  const PathVar := "PATH"
  const OpenPypeFusionVar := "OPENPYPE_FUSION"
  const ProfileVar := "FUSION16_PROFILE"
  const ProfileDirVar := "FUSION16_PROFILE_DIR"
  const MasterPrefsVar := "FUSION16_MasterPrefs"
  const DefaultProfile := "Default"

  /** The file suffixes of the preference files that are copied. */
  const PrefsSuffixes: seq<string> := [".prefs", ".def", ".blocklist", ".fu"]

  /** The host's view of the file system. */
  datatype FileSystem = FileSystem(
    pathExists: string -> bool,
    isDir: string -> bool,
    canCreateDir: string -> bool,
    listDir: string -> seq<string>)

  /** `get_fusion_profile_name`: `FUSION16_PROFILE` of the process
      environment, or "Default" when it is not set. */
  function ProfileName(processEnv: map<string, string>): string {
    if ProfileVar in processEnv then processEnv[ProfileVar] else DefaultProfile
  }

  /** `get_profile_source`: the profile named by `FUSION16_PROFILE_DIR`
      when that names a directory, otherwise `platformSource`, the
      platform's own profile folder. */
  function ProfileSource(processEnv: map<string, string>, fs: FileSystem, platformSource: string): string {
    if ProfileDirVar in processEnv && processEnv[ProfileDirVar] != "" && fs.isDir(processEnv[ProfileDirVar])
    then PathJoin(processEnv[ProfileDirVar], ProfileName(processEnv))
    else platformSource
  }

  /** The `copy_fusion_settings` entry of the project's Fusion settings;
      a key it lacks is None. */
  datatype CopyFusionSettings = CopyFusionSettings(copyStatus: Option<bool>, forceSync: Option<bool>, copyPath: Option<string>)

  /** What `get_copy_fusion_prefs_settings` returns. */
  datatype PrefsSettings = PrefsSettings(copyStatus: bool, copyPath: Option<string>, forceSync: bool)

  function GetOr(value: Option<bool>, default: bool): bool {
    match value
    case Some(b) => b
    case None => default
  }

  /** `get_copy_fusion_prefs_settings`; `expandUser` stands for
      `Path(...).expanduser()`. */
  function CopyPrefsSettings(entry: Option<CopyFusionSettings>, expandUser: string -> string): PrefsSettings {
    match entry
    case None => PrefsSettings(false, None, false)
    case Some(s) =>
      var copyPath := if s.copyPath.Some? && s.copyPath.value != "" then Some(expandUser(s.copyPath.value)) else None;
      PrefsSettings(GetOr(s.copyStatus, false), copyPath, GetOr(s.forceSync, false))
  }

  /** Missing settings mean no copy, no forced sync and no copy path, and a
      missing profile variable means the "Default" profile. */
  lemma SettingsDefaults(processEnv: map<string, string>, expandUser: string -> string)
    requires ProfileVar !in processEnv
    ensures CopyPrefsSettings(None, expandUser) == PrefsSettings(false, None, false)
    ensures CopyPrefsSettings(Some(CopyFusionSettings(None, None, None)), expandUser) == PrefsSettings(false, None, false)
    ensures CopyPrefsSettings(Some(CopyFusionSettings(None, None, Some(""))), expandUser) == PrefsSettings(false, None, false)
    ensures ProfileName(processEnv) == DefaultProfile
  {
  }

  /** `Path(name).suffix`: from the last `.` on, unless that dot leads the
      name or ends it. */
  function Suffix(name: string): string {
    var i := LastIndex(name, '.');
    if 0 < i < |name| - 1 then name[i..] else ""
  }

  /** For an extension such as `.prefs`, a name has it as suffix exactly
      when the name ends with it and has something in front of it. */
  lemma SuffixIs(name: string, ext: string)
    requires |ext| >= 2 && ext[0] == '.' && '.' !in ext[1..]
    ensures Suffix(name) == ext <==> EndsWith(name, ext) && |name| > |ext|
  {
    var i := LastIndex(name, '.');
    if EndsWith(name, ext) && |name| > |ext| {
      var p := |name| - |ext|;
      assert name[p] == ext[0];
      forall k | p < k < |name| ensures name[k] != '.' {
        assert name[k] == ext[k - p] == ext[1..][k - p - 1];
      }
      assert i == p;
      assert name[i..] == ext;
    }
    if Suffix(name) == ext {
      assert 0 < i < |name| - 1;
      assert name[i..] == ext;
    }
  }

  /** A directory entry whose file name has one of the preference
      suffixes. */
  predicate IsPrefsFile(file: string) {
    Suffix(Basename(file)) in PrefsSuffixes
  }

  /** A file is copied exactly when its name ends with `.prefs`, `.def`,
      `.blocklist` or `.fu` after at least one other character. */
  lemma IsPrefsFileIff(file: string)
    ensures IsPrefsFile(file) <==>
      exists ext :: ext in PrefsSuffixes && EndsWith(Basename(file), ext) && |Basename(file)| > |ext|
  {
    var name := Basename(file);
    forall ext | ext in PrefsSuffixes
      ensures Suffix(name) == ext <==> EndsWith(name, ext) && |name| > |ext|
    {
      SuffixIs(name, ext);
    }
  }

  /** The entries of the source folder that are copied, in listing order. */
  function PrefsFiles(entries: seq<string>): seq<string> {
    if entries == [] then []
    else
      var last := entries[|entries| - 1];
      PrefsFiles(entries[..|entries| - 1]) + (if IsPrefsFile(last) then [last] else [])
  }

  lemma {:induction false} PrefsFilesMembership(entries: seq<string>)
    ensures forall f :: f in PrefsFiles(entries) <==> f in entries && IsPrefsFile(f)
    decreases |entries|
  {
    if entries != [] {
      var init := entries[..|entries| - 1];
      PrefsFilesMembership(init);
      assert entries == init + [entries[|entries| - 1]];
    }
  }

  /** What `copy_existing_prefs` ends with. */
  datatype CopyOutcome =
    | SkippedExisting
    | DestinationNotCreated(dest: string)
    | SourceMissing(source: string)
    | Copied(files: seq<string>, dest: string)

  /** The decisions of `copy_existing_prefs`. */
  function CopyPlan(copyFrom: string, copyTo: string, forceSync: bool, profileName: string, fs: FileSystem): CopyOutcome {
    if fs.pathExists(copyTo) && !forceSync then SkippedExisting
    else
      var dest := PathJoin(copyTo, profileName);
      if !fs.canCreateDir(dest) then DestinationNotCreated(dest)
      else if !fs.pathExists(copyFrom) then SourceMissing(copyFrom)
      else Copied(PrefsFiles(fs.listDir(copyFrom)), dest)
  }

  /** The copy is skipped exactly when the destination exists and no
      re-sync is forced; when it runs to the end it copies exactly the
      preference files of the source folder. */
  lemma CopySkipRule(copyFrom: string, copyTo: string, forceSync: bool, profileName: string, fs: FileSystem)
    ensures CopyPlan(copyFrom, copyTo, forceSync, profileName, fs) == SkippedExisting <==> fs.pathExists(copyTo) && !forceSync
    ensures var plan := CopyPlan(copyFrom, copyTo, forceSync, profileName, fs);
      plan.Copied? ==> forall f :: f in plan.files <==> f in fs.listDir(copyFrom) && IsPrefsFile(f)
  {
    PrefsFilesMembership(fs.listDir(copyFrom));
  }

  /** `FusionPrelaunch.copy_existing_prefs`; the files it copies are
      reported rather than copied. */
  method CopyExistingPrefs(copyFrom: string, copyTo: string, forceSync: bool, profileName: string, fs: FileSystem)
    returns (outcome: CopyOutcome)
    ensures outcome == CopyPlan(copyFrom, copyTo, forceSync, profileName, fs)
  {
    if fs.pathExists(copyTo) && !forceSync {
      return SkippedExisting;
    }
    var destFolder := PathJoin(copyTo, profileName);
    if !fs.canCreateDir(destFolder) {
      return DestinationNotCreated(destFolder);
    }
    if !fs.pathExists(copyFrom) {
      return SourceMissing(copyFrom);
    }
    var entries := fs.listDir(copyFrom);
    var copied := [];
    for k := 0 to |entries|
      invariant copied == PrefsFiles(entries[..k])
    {
      var file := entries[k];
      if Suffix(Basename(file)) in PrefsSuffixes {
        copied := copied + [file];
      }
      assert entries[..k + 1][..k] == entries[..k];
    }
    assert entries[..|entries|] == entries;
    return Copied(copied, destFolder);
  }

  /** The first candidate that, once normalised, is a directory. */
  function FirstDirectory(candidates: seq<string>, normPath: string -> string, isDir: string -> bool): Option<string> {
    if candidates == [] then None
    else if isDir(normPath(candidates[0])) then Some(normPath(candidates[0]))
    else FirstDirectory(candidates[1..], normPath, isDir)
  }

  /** The chosen directory is the normalised form of the first candidate
      that is a directory; there is none only when no candidate is. */
  lemma {:induction false} FirstDirectorySpec(candidates: seq<string>, normPath: string -> string, isDir: string -> bool)
    ensures var found := FirstDirectory(candidates, normPath, isDir);
      && (found.None? <==> forall k :: 0 <= k < |candidates| ==> !isDir(normPath(candidates[k])))
      && (found.Some? ==> exists k :: 0 <= k < |candidates| && found.value == normPath(candidates[k]) && isDir(found.value) &&
                                      forall j :: 0 <= j < k ==> !isDir(normPath(candidates[j])))
    decreases |candidates|
  {
    if candidates != [] && !isDir(normPath(candidates[0])) {
      var rest := candidates[1..];
      FirstDirectorySpec(rest, normPath, isDir);
      var found := FirstDirectory(rest, normPath, isDir);
      if found.Some? {
        var k :| 0 <= k < |rest| && found.value == normPath(rest[k]) && isDir(found.value) &&
                 forall j :: 0 <= j < k ==> !isDir(normPath(rest[j]));
        assert candidates[k + 1] == rest[k];
        forall j | 0 <= j < k + 1 ensures !isDir(normPath(candidates[j])) {
          if j > 0 { assert candidates[j] == rest[j - 1]; }
        }
      } else {
        forall j | 0 <= j < |candidates| ensures !isDir(normPath(candidates[j])) {
          if j > 0 { assert candidates[j] == rest[j - 1]; }
        }
      }
    }
  }

  /** The `for ... else` search of `execute` over the `pathsep`-separated
      candidates of the Python 3 home value. */
  method FindPython3Home(home: string, pathsep: char, normPath: string -> string, isDir: string -> bool)
    returns (dir: Option<string>)
    ensures dir == FirstDirectory(Split(home, pathsep), normPath, isDir)
  {
    var candidates := Split(home, pathsep);
    var k := 0;
    while k < |candidates|
      invariant 0 <= k <= |candidates|
      invariant FirstDirectory(candidates[k..], normPath, isDir) == FirstDirectory(candidates, normPath, isDir)
    {
      var py3Dir := normPath(candidates[k]);
      if isDir(py3Dir) {
        return Some(py3Dir);
      }
      assert candidates[k..][1..] == candidates[k + 1..];
      k := k + 1;
    }
    return None;
  }

  /** `FUSION16_MasterPrefs`: the shared preferences file shipped with the
      integration. */
  function MasterPrefsPath(hostDir: string): string {
    PathJoin(PathJoin(hostDir, "deploy"), "fusion_shared.prefs")
  }

  datatype LaunchError = Python3NotInstalled(home: string) | MissingPathVariable

  /** How the preferences were handled: a profile folder was named, or a
      copy was attempted. */
  datatype PrefsStep = ProfileDirSet(value: string) | PrefsCopy(outcome: CopyOutcome)

  /** Everything `execute` depends on besides the launch environment. */
  datatype LaunchInputs = LaunchInputs(
    processEnv: map<string, string>,
    settings: Option<CopyFusionSettings>,
    expandUser: string -> string,
    normPath: string -> string,
    fs: FileSystem,
    pathsep: char,
    hostDir: string,
    platformSource: string)

  /** The outcome of `execute` and the launch environment it leaves. */
  datatype Launch = Launch(result: Result<PrefsStep, LaunchError>, env: map<string, string>)

  function Python3Home(env: map<string, string>): string {
    if Python3HomeVar in env then env[Python3HomeVar] else ""
  }

  /** The environment once the Python 3 directory `dir` is chosen, before
      the preference handling. */
  function PythonEnv(env: map<string, string>, dir: string, hostDir: string): map<string, string>
    requires PathVar in env
  {
    env[Python3HomeVar := dir][PathVar := env[PathVar] + ";" + dir][Python36HomeVar := dir][OpenPypeFusionVar := hostDir]
  }

  /** The string stored in `FUSION16_PROFILE_DIR` (`str` of the path, or of
      None). */
  function ProfileDirValue(copyPath: Option<string>): string {
    match copyPath
    case Some(p) => p
    case None => "None"
  }

  /** `FusionPrelaunch.execute`, as a function of the launch environment. */
  function LaunchPlan(env: map<string, string>, inputs: LaunchInputs): Launch {
    var home := Python3Home(env);
    match FirstDirectory(Split(home, inputs.pathsep), inputs.normPath, inputs.fs.isDir)
    case None => Launch(Err(Python3NotInstalled(home)), env)
    case Some(dir) =>
      if PathVar !in env then Launch(Err(MissingPathVariable), env[Python3HomeVar := dir])
      else
        var pyEnv := PythonEnv(env, dir, inputs.hostDir);
        var settings := CopyPrefsSettings(inputs.settings, inputs.expandUser);
        var master := MasterPrefsPath(inputs.hostDir);
        if settings.copyStatus && settings.copyPath.Some? then
          var source := ProfileSource(inputs.processEnv, inputs.fs, inputs.platformSource);
          var outcome := CopyPlan(source, settings.copyPath.value, settings.forceSync, ProfileName(inputs.processEnv), inputs.fs);
          Launch(Ok(PrefsCopy(outcome)), pyEnv[MasterPrefsVar := master])
        else
          var value := ProfileDirValue(settings.copyPath);
          Launch(Ok(ProfileDirSet(value)), pyEnv[ProfileDirVar := value][MasterPrefsVar := master])
  }

  /** The launch context of the hook. */
  class LaunchContext {
    var env: map<string, string>

    constructor (env: map<string, string>)
      ensures this.env == env
    {
      this.env := env;
    }
  }

  /** `FusionPrelaunch.execute`. */
  method Execute(context: LaunchContext, inputs: LaunchInputs) returns (result: Result<PrefsStep, LaunchError>)
    modifies context
    ensures Launch(result, context.env) == LaunchPlan(old(context.env), inputs)
  {
    var fusionPython3Home := Python3Home(context.env);
    var py3Dir := FindPython3Home(fusionPython3Home, inputs.pathsep, inputs.normPath, inputs.fs.isDir);
    if py3Dir.None? {
      return Err(Python3NotInstalled(fusionPython3Home));
    }
    var dir := py3Dir.value;
    context.env := context.env[Python3HomeVar := dir];
    if PathVar !in context.env {
      return Err(MissingPathVariable);
    }
    context.env := context.env[PathVar := context.env[PathVar] + ";" + dir];
    context.env := context.env[Python36HomeVar := dir];
    context.env := context.env[OpenPypeFusionVar := inputs.hostDir];
    var settings := CopyPrefsSettings(inputs.settings, inputs.expandUser);
    if settings.copyStatus && settings.copyPath.Some? {
      var prefsSource := ProfileSource(inputs.processEnv, inputs.fs, inputs.platformSource);
      var outcome := CopyExistingPrefs(prefsSource, settings.copyPath.value, settings.forceSync, ProfileName(inputs.processEnv), inputs.fs);
      result := Ok(PrefsCopy(outcome));
    } else {
      var value := ProfileDirValue(settings.copyPath);
      context.env := context.env[ProfileDirVar := value];
      result := Ok(ProfileDirSet(value));
    }
    context.env := context.env[MasterPrefsVar := MasterPrefsPath(inputs.hostDir)];
  }

  /** When no candidate is a directory the launch fails and the environment
      is left as it was. */
  lemma NoPythonNoWrites(env: map<string, string>, inputs: LaunchInputs)
    requires forall k :: 0 <= k < |Split(Python3Home(env), inputs.pathsep)| ==>
      !inputs.fs.isDir(inputs.normPath(Split(Python3Home(env), inputs.pathsep)[k]))
    ensures LaunchPlan(env, inputs) == Launch(Err(Python3NotInstalled(Python3Home(env))), env)
  {
    FirstDirectorySpec(Split(Python3Home(env), inputs.pathsep), inputs.normPath, inputs.fs.isDir);
  }

  /** On a successful launch `PATH` was set, both Python homes name the
      first candidate that is a directory, and `PATH` gains it after a `;`. */
  lemma SuccessfulLaunchPython(env: map<string, string>, inputs: LaunchInputs)
    requires LaunchPlan(env, inputs).result.Ok?
    ensures var launch := LaunchPlan(env, inputs);
      && PathVar in env
      && (exists k :: 0 <= k < |Split(Python3Home(env), inputs.pathsep)| &&
           (var dir := inputs.normPath(Split(Python3Home(env), inputs.pathsep)[k]);
            && inputs.fs.isDir(dir)
            && (forall j :: 0 <= j < k ==> !inputs.fs.isDir(inputs.normPath(Split(Python3Home(env), inputs.pathsep)[j])))
            && launch.env[Python3HomeVar] == dir && launch.env[Python36HomeVar] == dir
            && launch.env[PathVar] == env[PathVar] + ";" + dir))
  {
    var candidates := Split(Python3Home(env), inputs.pathsep);
    FirstDirectorySpec(candidates, inputs.normPath, inputs.fs.isDir);
  }

  /** On a successful launch `OPENPYPE_FUSION` and the master preferences
      are set, and the profile folder variable is written exactly when no
      copy is made; otherwise it keeps its old value or stays unset. */
  lemma SuccessfulLaunchProfile(env: map<string, string>, inputs: LaunchInputs)
    requires LaunchPlan(env, inputs).result.Ok?
    ensures var launch := LaunchPlan(env, inputs);
      var settings := CopyPrefsSettings(inputs.settings, inputs.expandUser);
      && OpenPypeFusionVar in launch.env && launch.env[OpenPypeFusionVar] == inputs.hostDir
      && MasterPrefsVar in launch.env && launch.env[MasterPrefsVar] == MasterPrefsPath(inputs.hostDir)
      && (launch.result.value.ProfileDirSet? <==> !(settings.copyStatus && settings.copyPath.Some?))
      && (launch.result.value.ProfileDirSet? ==>
            ProfileDirVar in launch.env && launch.env[ProfileDirVar] == ProfileDirValue(settings.copyPath))
      && (launch.result.value.PrefsCopy? ==>
            (ProfileDirVar in launch.env <==> ProfileDirVar in env) &&
            (ProfileDirVar in env ==> launch.env[ProfileDirVar] == env[ProfileDirVar]))
  {
  }

  /** Whatever the outcome, the hook writes no variable besides the two
      Python homes, `PATH`, `OPENPYPE_FUSION`, the profile folder and the
      master preferences. */
  lemma LaunchKeepsOtherVariables(env: map<string, string>, inputs: LaunchInputs, key: string)
    requires key != Python3HomeVar && key != Python36HomeVar && key != PathVar
    requires key != OpenPypeFusionVar && key != ProfileDirVar && key != MasterPrefsVar
    ensures var launch := LaunchPlan(env, inputs);
      (key in launch.env <==> key in env) && (key in env ==> launch.env[key] == env[key])
  {
  }

  /** When the copy settings ask for a copy, the attempt follows the skip
      rule on the configured folder and the profile folder variable is
      not written. */
  lemma CopyAttemptedWhenConfigured(env: map<string, string>, inputs: LaunchInputs, copyPath: string)
    requires LaunchPlan(env, inputs).result.Ok?
    requires CopyPrefsSettings(inputs.settings, inputs.expandUser) == PrefsSettings(true, Some(copyPath), false)
    requires inputs.fs.pathExists(copyPath)
    ensures LaunchPlan(env, inputs).result == Ok(PrefsCopy(SkippedExisting))
  {
  }
}
