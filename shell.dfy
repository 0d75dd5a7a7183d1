/**
 * The shell resolver `getShell`: from the host platform, the editor's terminal-profile
 * configuration, the OS user record and the process environment, choose the path of the
 * shell executable to spawn.
 *
 * The precedence chain is fixed: the default profile's explicit path, then its well-known
 * source tag, then a keyword in its name, then the OS user's shell, then the platform's
 * environment variable, then a hard-coded platform default. A failing configuration read or
 * user-info read makes that one source absent and nothing else.
 *
 * Modelling choices where the tests leave the behaviour open:
 *  - an empty string counts as absent for every source (JavaScript treats "" as falsy);
 *  - an unrecognised platform has no configuration namespace and no environment variable,
 *    but the OS user's shell is still consulted before "/bin/sh";
 *  - source tags match exactly; name keywords match case-insensitively (ASCII), and
 *    "powershell" is tried before "wsl";
 *  - a source tag that names no well-known family falls on to the name keywords;
 *  - on Windows, an unlisted default profile, or a listed one with no path, no known tag and
 *    no keyword in its name, decides nothing: the OS user's shell and COMSPEC still come
 *    before cmd.exe;
 *  - name keywords are looked for only when the default profile is listed in the table.
 */
module Shell {
  import opened Optional
  import opened AsciiText

  // ---------------------------------------------------------------------------
  // Inputs
  // ---------------------------------------------------------------------------

  /** The platform class derived from `process.platform`. */
  datatype Platform = Windows | MacOS | Linux | Other(id: string)

  /** A terminal profile: an explicit executable path and/or a well-known family tag. */
  datatype Profile = Profile(path: Option<string>, source: Option<string>)

  /** A value the configuration's `get(key)` can answer with. */
  datatype Setting =
    | ProfileName(name: string)
    | ProfileTable(profiles: map<string, Profile>)

  /**
   * The editor configuration: either reading it raises, or `get(key)` answers from
   * `settings` (a key that is not there reads as undefined).
   */
  datatype Config = CfgError | Cfg(settings: map<string, Setting>)

  /** The result of `os.userInfo()`: either the call raises, or it gives a `shell` field. */
  datatype UserInfo = UiError | Ui(shell: Option<string>)

  /** The process environment. */
  type Env = map<string, string>

  /** Classifies the host identifier: only "win32", "darwin" and "linux" are recognised. */
  function PlatformOf(id: string): (p: Platform)
    ensures p == Windows <==> id == "win32"
    ensures p == MacOS <==> id == "darwin"
    ensures p == Linux <==> id == "linux"
    ensures p.Other? ==> p.id == id
  {
    if id == "win32" then Windows
    else if id == "darwin" then MacOS
    else if id == "linux" then Linux
    else Other(id)
  }

  // ---------------------------------------------------------------------------
  // Per-platform constant tables
  // ---------------------------------------------------------------------------

  const PowerShell7 := @"C:\Program Files\PowerShell\7\pwsh.exe"
  const PowerShellLegacy := @"C:\Windows\System32\WindowsPowerShell\v1.0\powershell.exe"
  const WslBash := "/bin/bash"
  const WindowsCmd := @"C:\Windows\System32\cmd.exe"

  /** The configuration namespace of each platform; an unrecognised platform has none. */
  function Namespace(p: Platform): (ns: Option<string>)
    ensures p == Windows ==> ns == Some("windows")
    ensures p == MacOS ==> ns == Some("osx")
    ensures p == Linux ==> ns == Some("linux")
    ensures ns.None? <==> p.Other?
  {
    match p
    case Windows => Some("windows")
    case MacOS => Some("osx")
    case Linux => Some("linux")
    case Other(_) => None
  }

  /** The environment variable naming the shell: COMSPEC on Windows, SHELL on POSIX. */
  function ShellVariable(p: Platform): (v: Option<string>)
    ensures v.None? <==> p.Other?
  {
    match p
    case Windows => Some("COMSPEC")
    case MacOS | Linux => Some("SHELL")
    case Other(_) => None
  }

  /** The hard-coded last resort of each platform. */
  function DefaultShell(p: Platform): (r: string)
    ensures r != ""
  {
    match p
    case Windows => WindowsCmd
    case MacOS => "/bin/zsh"
    case Linux => "/bin/bash"
    case Other(_) => "/bin/sh"
  }

  /** Well-known profile `source` tags and the shell each stands for. */
  function SourceShells(p: Platform): (m: map<string, string>)
    ensures forall tag :: tag in m ==> m[tag] != ""
  {
    match p
    case Windows => map["PowerShell" := PowerShell7, "WSL" := WslBash]
    case _ => map[]
  }

  /** Lower-case keywords looked for in a profile name, in the order they are tried. */
  function NameKeywords(p: Platform): (kws: seq<(string, string)>)
    ensures forall i :: 0 <= i < |kws| ==> kws[i].1 != ""
  {
    match p
    case Windows => [("powershell", PowerShellLegacy), ("wsl", WslBash)]
    case _ => []
  }

  // ---------------------------------------------------------------------------
  // Reading each source
  // ---------------------------------------------------------------------------

  /** A value counts only when it is a non-empty string. */
  function Present(o: Option<string>): (r: Option<string>)
    ensures r.Some? <==> o.Some? && o.value != ""
    ensures r.Some? ==> r == o
  {
    if o.Some? && o.value != "" then o else None
  }

  function DefaultProfileKey(ns: string): string {
    "defaultProfile." + ns
  }

  function ProfilesKey(ns: string): string {
    "profiles." + ns
  }

  /** What one platform namespace of the configuration says. */
  datatype TerminalConfig = TerminalConfig(defaultName: Option<string>, profiles: map<string, Profile>)

  /**
   * Reads `defaultProfile.<ns>` and `profiles.<ns>`. A raising configuration reads as no
   * name and no profiles; a missing or wrongly typed value reads as absent.
   */
  function ReadTerminalConfig(cfg: Config, ns: string): (t: TerminalConfig)
    ensures cfg.CfgError? ==> t == TerminalConfig(None, map[])
  {
    match cfg
    case CfgError => TerminalConfig(None, map[])
    case Cfg(settings) =>
      var nameKey, tableKey := DefaultProfileKey(ns), ProfilesKey(ns);
      var name := if nameKey in settings && settings[nameKey].ProfileName?
        then Some(settings[nameKey].name) else None;
      var profiles := if tableKey in settings && settings[tableKey].ProfileTable?
        then settings[tableKey].profiles else map[];
      TerminalConfig(name, profiles)
  }

  /**
   * The configuration names `name` as the default profile of namespace `ns` and lists
   * `profile` under that name in the namespace's profile table.
   */
  predicate Configures(cfg: Config, ns: string, name: string, profile: Profile) {
    && cfg.Cfg?
    && DefaultProfileKey(ns) in cfg.settings
    && cfg.settings[DefaultProfileKey(ns)] == ProfileName(name)
    && ProfilesKey(ns) in cfg.settings
    && cfg.settings[ProfilesKey(ns)].ProfileTable?
    && name in cfg.settings[ProfilesKey(ns)].profiles
    && cfg.settings[ProfilesKey(ns)].profiles[name] == profile
  }

  /**
   * The configured default profile with its name: selected exactly when the platform's
   * namespace names a non-empty default profile that its profile table lists.
   */
  function SelectedProfile(p: Platform, cfg: Config): (r: Option<(string, Profile)>)
    ensures r.Some? ==>
      Namespace(p).Some? && r.value.0 != "" && Configures(cfg, Namespace(p).value, r.value.0, r.value.1)
    ensures forall name, profile ::
      (Namespace(p).Some? && name != "" && Configures(cfg, Namespace(p).value, name, profile))
        ==> r == Some((name, profile))
  {
    match Namespace(p)
    case None => None
    case Some(ns) =>
      var t := ReadTerminalConfig(cfg, ns);
      match Present(t.defaultName)
      case None => None
      case Some(name) => if name in t.profiles then Some((name, t.profiles[name])) else None
  }

  /**
   * The shell a well-known `source` tag stands for: on Windows only, "PowerShell" means
   * PowerShell 7 and "WSL" means WSL's bash; tags match exactly and nothing else is known.
   */
  function SourceShell(p: Platform, source: Option<string>): (r: Option<string>)
    ensures p == Windows && source == Some("PowerShell") ==> r == Some(PowerShell7)
    ensures p == Windows && source == Some("WSL") ==> r == Some(WslBash)
    ensures r.Some? ==> p == Windows && (source == Some("PowerShell") || source == Some("WSL"))
  {
    if source.Some? && source.value in SourceShells(p) then Some(SourceShells(p)[source.value]) else None
  }

  /**
   * The shell of the first keyword that occurs in `name`. Both directions: some shell is
   * found exactly when some keyword occurs, and the one found belongs to the earliest.
   */
  function KeywordShell(name: string, keywords: seq<(string, string)>): (r: Option<string>)
    ensures r.Some? <==> exists i :: 0 <= i < |keywords| && Occurs(keywords[i].0, name)
    ensures r.Some? ==>
      exists i :: 0 <= i < |keywords| && Occurs(keywords[i].0, name) && r.value == keywords[i].1 &&
        forall j :: 0 <= j < i ==> !Occurs(keywords[j].0, name)
  {
    if keywords == [] then None
    else if Contains(name, keywords[0].0) then Some(keywords[0].1)
    else
      var r := KeywordShell(name, keywords[1..]);
      assert forall i :: 1 <= i < |keywords| ==> keywords[i] == keywords[1..][i - 1];
      r
  }

  /**
   * A selected profile's shell: its path, else its source tag, else a keyword in its name.
   * A non-empty path always wins; off Windows a path is the only thing a profile can give.
   */
  function ProfileShell(p: Platform, name: string, profile: Profile): (r: Option<string>)
    ensures r.Some? ==> r.value != ""
    ensures Present(profile.path).Some? ==> r == profile.path
    ensures p != Windows ==> r == Present(profile.path)
  {
    Present(profile.path)
      .OrElse(SourceShell(p, profile.source))
      .OrElse(KeywordShell(Lower(name), NameKeywords(p)))
  }

  /**
   * Steps 1-3 of the chain: what the editor configuration decides, if anything. Nothing
   * comes from a raising configuration, from an unrecognised platform, or without a
   * selected default profile.
   */
  function ConfigShell(p: Platform, cfg: Config): (r: Option<string>)
    ensures r.Some? ==> r.value != "" && SelectedProfile(p, cfg).Some?
    ensures cfg.CfgError? || p.Other? ==> r.None?
  {
    match SelectedProfile(p, cfg)
    case None => None
    case Some((name, profile)) => ProfileShell(p, name, profile)
  }

  /** Step 4: the OS user's shell; a raising `userInfo()` reads as absent. */
  function UserInfoShell(ui: UserInfo): (r: Option<string>)
    ensures ui.UiError? ==> r.None?
  {
    match ui
    case UiError => None
    case Ui(shell) => Present(shell)
  }

  /**
   * Step 5: the platform's shell environment variable, when set and non-empty: COMSPEC on
   * Windows, SHELL on macOS and Linux, none on an unrecognised platform.
   */
  function EnvShell(p: Platform, env: Env): (r: Option<string>)
    ensures p == Windows ==>
      r == (if "COMSPEC" in env && env["COMSPEC"] != "" then Some(env["COMSPEC"]) else None)
    ensures p == MacOS || p == Linux ==>
      r == (if "SHELL" in env && env["SHELL"] != "" then Some(env["SHELL"]) else None)
    ensures p.Other? ==> r.None?
  {
    match ShellVariable(p)
    case None => None
    case Some(v) => if v in env then Present(Some(env[v])) else None
  }

  // ---------------------------------------------------------------------------
  // The resolver
  // ---------------------------------------------------------------------------

  /** The whole chain for a platform class. Total, and never the empty string. */
  function Resolve(p: Platform, cfg: Config, ui: UserInfo, env: Env): (r: string)
    ensures r != ""
  {
    ConfigShell(p, cfg)
      .OrElse(UserInfoShell(ui))
      .OrElse(EnvShell(p, env))
      .GetOr(DefaultShell(p))
  }

  /** `getShell()`: classify `process.platform`, then resolve. */
  function GetShell(platform: string, cfg: Config, ui: UserInfo, env: Env): (r: string)
    ensures r != ""
  {
    Resolve(PlatformOf(platform), cfg, ui, env)
  }
}
