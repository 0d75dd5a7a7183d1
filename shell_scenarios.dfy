/**
 * The resolver's test suite, one lemma per case. Every case starts from an environment
 * without SHELL and COMSPEC and a user record whose shell is null, and any other
 * environment variables may be present.
 */
module ShellScenarios {
  import opened Optional
  import opened AsciiText
  import opened Shell
  import opened ShellProperties

  /** The configuration stand-in: answers `defaultProfile.<ns>` and `profiles.<ns>` only. */
  function MockConfig(ns: string, defaultName: Option<string>, profiles: map<string, Profile>): (cfg: Config)
    ensures cfg.Cfg? && ProfilesKey(ns) in cfg.settings
    ensures cfg.settings[ProfilesKey(ns)] == ProfileTable(profiles)
    ensures defaultName.Some? <==> DefaultProfileKey(ns) in cfg.settings
    ensures defaultName.Some? ==> cfg.settings[DefaultProfileKey(ns)] == ProfileName(defaultName.value)
    ensures cfg.settings.Keys <= {DefaultProfileKey(ns), ProfilesKey(ns)}
  {
    var names := if defaultName.Some? then map[DefaultProfileKey(ns) := ProfileName(defaultName.value)] else map[];
    var tables := map[ProfilesKey(ns) := ProfileTable(profiles)];
    assert DefaultProfileKey(ns)[0] != ProfilesKey(ns)[0];
    Cfg(names + tables)
  }

  /** A configuration whose `get` answers undefined for every key. */
  const Undefined := Cfg(map[])

  /** The user record of every case unless the case sets one: `{ shell: null }`. */
  const NoUserShell := Ui(None)

  const Bare := Profile(None, None)

  /** The environment after SHELL and COMSPEC are deleted. */
  predicate Cleared(env: Env) {
    "SHELL" !in env && "COMSPEC" !in env
  }

  // Windows --------------------------------------------------------------------

  lemma WindowsProfilePath(env: Env)
    requires Cleared(env)
    ensures GetShell("win32",
      MockConfig("windows", Some("PowerShell"),
                 map["PowerShell" := Profile(Some(@"C:\Program Files\PowerShell\7\pwsh.exe"), None)]),
      NoUserShell, env) == @"C:\Program Files\PowerShell\7\pwsh.exe"
  {
  }

  lemma WindowsPowerShellSource(env: Env)
    requires Cleared(env)
    ensures GetShell("win32",
      MockConfig("windows", Some("PowerShell"), map["PowerShell" := Profile(None, Some("PowerShell"))]),
      NoUserShell, env) == @"C:\Program Files\PowerShell\7\pwsh.exe"
  {
  }

  lemma WindowsLegacyPowerShellByName(env: Env)
    requires Cleared(env)
    ensures GetShell("win32",
      MockConfig("windows", Some("PowerShell"), map["PowerShell" := Bare]),
      NoUserShell, env) == @"C:\Windows\System32\WindowsPowerShell\v1.0\powershell.exe"
  {
    assert OccursAt("powershell", Lower("PowerShell"), 0);
    var cfg := MockConfig("windows", Some("PowerShell"), map["PowerShell" := Bare]);
    assert Configures(cfg, "windows", "PowerShell", Bare);
    WindowsProfileNameKeywords(cfg, "PowerShell", Bare, NoUserShell, env);
  }

  lemma WindowsUnlistedProfile(env: Env)
    requires Cleared(env)
    ensures GetShell("win32",
      MockConfig("windows", Some("NonExistentProfile"), map[]),
      NoUserShell, env) == @"C:\Windows\System32\cmd.exe"
  {
  }

  lemma WindowsWslSource(env: Env)
    requires Cleared(env)
    ensures GetShell("win32",
      MockConfig("windows", Some("WSL"), map["WSL" := Profile(None, Some("WSL"))]),
      NoUserShell, env) == "/bin/bash"
  {
  }

  lemma WindowsWslByName(env: Env)
    requires Cleared(env)
    ensures GetShell("win32",
      MockConfig("windows", Some("Ubuntu WSL"), map["Ubuntu WSL" := Bare]),
      NoUserShell, env) == "/bin/bash"
  {
    var folded := Lower("Ubuntu WSL");
    assert OccursAt("wsl", folded, 7);
    LowerOmits("Ubuntu WSL", 'p');
    MissingCharBlocksOccurs("powershell", folded, 'p');
    var cfg := MockConfig("windows", Some("Ubuntu WSL"), map["Ubuntu WSL" := Bare]);
    WindowsProfileNameKeywords(cfg, "Ubuntu WSL", Bare, NoUserShell, env);
  }

  lemma WindowsUnmatchedProfile(env: Env)
    requires Cleared(env)
    ensures GetShell("win32",
      MockConfig("windows", Some("CommandPrompt"), map["CommandPrompt" := Bare]),
      NoUserShell, env) == @"C:\Windows\System32\cmd.exe"
  {
    var folded := Lower("CommandPrompt");
    LowerOmits("CommandPrompt", 'w');
    MissingCharBlocksOccurs("powershell", folded, 'w');
    MissingCharBlocksOccurs("wsl", folded, 'w');
    var cfg := MockConfig("windows", Some("CommandPrompt"), map["CommandPrompt" := Bare]);
    WindowsUnmatchedNameFallsThrough(cfg, "CommandPrompt", Bare, NoUserShell, env);
  }

  lemma WindowsUserInfoShell(env: Env)
    requires Cleared(env)
    ensures GetShell("win32", Undefined, Ui(Some(@"C:\Custom\PowerShell.exe")), env)
      == @"C:\Custom\PowerShell.exe"
  {
  }

  lemma WindowsComspec(env: Env)
    requires Cleared(env)
    ensures GetShell("win32", Undefined, NoUserShell, env["COMSPEC" := @"D:\CustomCmd\cmd.exe"])
      == @"D:\CustomCmd\cmd.exe"
  {
  }

  // macOS ----------------------------------------------------------------------

  lemma MacProfilePath(env: Env)
    requires Cleared(env)
    ensures GetShell("darwin",
      MockConfig("osx", Some("MyCustomShell"), map["MyCustomShell" := Profile(Some("/usr/local/bin/fish"), None)]),
      NoUserShell, env) == "/usr/local/bin/fish"
  {
  }

  lemma MacUserInfoShell(env: Env)
    requires Cleared(env)
    ensures GetShell("darwin", Undefined, Ui(Some("/opt/homebrew/bin/zsh")), env) == "/opt/homebrew/bin/zsh"
  {
  }

  lemma MacShellVariable(env: Env)
    requires Cleared(env)
    ensures GetShell("darwin", Undefined, NoUserShell, env["SHELL" := "/usr/local/bin/zsh"]) == "/usr/local/bin/zsh"
  {
  }

  lemma MacDefault(env: Env)
    requires Cleared(env)
    ensures GetShell("darwin", Undefined, NoUserShell, env) == "/bin/zsh"
  {
  }

  // Linux ----------------------------------------------------------------------

  lemma LinuxProfilePath(env: Env)
    requires Cleared(env)
    ensures GetShell("linux",
      MockConfig("linux", Some("CustomProfile"), map["CustomProfile" := Profile(Some("/usr/bin/fish"), None)]),
      NoUserShell, env) == "/usr/bin/fish"
  {
  }

  lemma LinuxUserInfoShell(env: Env)
    requires Cleared(env)
    ensures GetShell("linux", Undefined, Ui(Some("/usr/bin/zsh")), env) == "/usr/bin/zsh"
  {
  }

  lemma LinuxShellVariable(env: Env)
    requires Cleared(env)
    ensures GetShell("linux", Undefined, NoUserShell, env["SHELL" := "/usr/bin/fish"]) == "/usr/bin/fish"
  {
  }

  lemma LinuxDefault(env: Env)
    requires Cleared(env)
    ensures GetShell("linux", Undefined, NoUserShell, env) == "/bin/bash"
  {
  }

  // Unknown platform and error handling -----------------------------------------

  lemma UnknownPlatformDefault(env: Env)
    requires Cleared(env)
    ensures GetShell("sunos", Undefined, NoUserShell, env) == "/bin/sh"
  {
  }

  lemma ConfigErrorFallsToUserInfo(env: Env)
    requires Cleared(env)
    ensures GetShell("linux", CfgError, Ui(Some("/bin/bash")), env) == "/bin/bash"
  {
  }

  lemma UserInfoErrorFallsToShellVariable(env: Env)
    requires Cleared(env)
    ensures GetShell("darwin", Undefined, UiError, env["SHELL" := "/bin/zsh"]) == "/bin/zsh"
  {
  }

  lemma EverythingFailsOnLinux(env: Env)
    requires Cleared(env)
    ensures GetShell("linux", CfgError, UiError, env) == "/bin/bash"
  {
  }
}
