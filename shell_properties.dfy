/**
 * Properties of the shell resolver: the fixed precedence order, the independence of each
 * failing source, and the per-platform rules for profile tags and names.
 */
module ShellProperties {
  import opened Optional
  import opened AsciiText
  import opened Shell

  /** The six sources in precedence order, each read independently of the others. */
  function Sources(p: Platform, cfg: Config, ui: UserInfo, env: Env): (s: seq<Option<string>>)
    ensures |s| == 6 && s[5].Some?
  {
    var selected := SelectedProfile(p, cfg);
    [ if selected.Some? then Present(selected.value.1.path) else None,
      if selected.Some? then SourceShell(p, selected.value.1.source) else None,
      if selected.Some? then KeywordShell(Lower(selected.value.0), NameKeywords(p)) else None,
      UserInfoShell(ui),
      EnvShell(p, env),
      Some(DefaultShell(p)) ]
  }

  /** The resolver returns the first source in precedence order that yields a value. */
  lemma ResolveIsFirstSource(p: Platform, cfg: Config, ui: UserInfo, env: Env)
    ensures Some(Resolve(p, cfg, ui, env)) == FirstPresent(Sources(p, cfg, ui, env))
  {
    var s := Sources(p, cfg, ui, env);
    FirstPresentCons(s[5], []);
    FirstPresentCons(s[4], [s[5]]);
    FirstPresentCons(s[3], [s[4], s[5]]);
    FirstPresentCons(s[2], [s[3], s[4], s[5]]);
    FirstPresentCons(s[1], [s[2], s[3], s[4], s[5]]);
    FirstPresentCons(s[0], [s[1], s[2], s[3], s[4], s[5]]);
    assert s == [s[0], s[1], s[2], s[3], s[4], s[5]];
  }

  /**
   * Once source `k` yields a value and every earlier one is empty, that value is the result,
   * whatever the later sources hold.
   */
  lemma EarliestSourceWins(p: Platform, cfg: Config, ui: UserInfo, env: Env, k: nat)
    requires k < 6
    requires Sources(p, cfg, ui, env)[k].Some?
    requires forall j :: 0 <= j < k ==> Sources(p, cfg, ui, env)[j].None?
    ensures Resolve(p, cfg, ui, env) == Sources(p, cfg, ui, env)[k].value
  {
    ResolveIsFirstSource(p, cfg, ui, env);
  }

  /** The result is always the value of one of the sources. */
  lemma ResultComesFromASource(p: Platform, cfg: Config, ui: UserInfo, env: Env)
    ensures exists k :: 0 <= k < 6 && Sources(p, cfg, ui, env)[k] == Some(Resolve(p, cfg, ui, env))
  {
    ResolveIsFirstSource(p, cfg, ui, env);
  }

  /** A default profile that is named (non-empty) and listed is the one the resolver selects. */
  lemma SelectsConfiguredProfile(p: Platform, ns: string, cfg: Config, name: string, profile: Profile)
    requires Namespace(p) == Some(ns)
    requires Configures(cfg, ns, name, profile) && name != ""
    ensures SelectedProfile(p, cfg) == Some((name, profile))
  {
  }

  /** An explicit profile path wins on every platform, whatever user-info and environment say. */
  lemma ExplicitPathWins(p: Platform, ns: string, cfg: Config, name: string, profile: Profile,
                         ui: UserInfo, env: Env)
    requires Namespace(p) == Some(ns)
    requires Configures(cfg, ns, name, profile) && name != ""
    requires profile.path.Some? && profile.path.value != ""
    ensures Resolve(p, cfg, ui, env) == profile.path.value
  {
    SelectsConfiguredProfile(p, ns, cfg, name, profile);
  }

  /** Without a path, a recognised source tag decides, before the profile name is looked at. */
  lemma SourceTagWins(p: Platform, ns: string, cfg: Config, name: string, profile: Profile,
                      ui: UserInfo, env: Env)
    requires Namespace(p) == Some(ns)
    requires Configures(cfg, ns, name, profile) && name != ""
    requires Present(profile.path).None?
    requires profile.source.Some? && profile.source.value in SourceShells(p)
    ensures Resolve(p, cfg, ui, env) == SourceShells(p)[profile.source.value]
  {
    SelectsConfiguredProfile(p, ns, cfg, name, profile);
  }

  /** On Windows the tag "PowerShell" means PowerShell 7 and the tag "WSL" means WSL's bash. */
  lemma WindowsSourceTags(cfg: Config, name: string, profile: Profile, ui: UserInfo, env: Env)
    requires Configures(cfg, "windows", name, profile) && name != ""
    requires Present(profile.path).None?
    ensures profile.source == Some("PowerShell") ==> Resolve(Windows, cfg, ui, env) == PowerShell7
    ensures profile.source == Some("WSL") ==> Resolve(Windows, cfg, ui, env) == WslBash
  {
    if profile.source == Some("PowerShell") || profile.source == Some("WSL") {
      SourceTagWins(Windows, "windows", cfg, name, profile, ui, env);
    }
  }

  /**
   * On Windows a profile with no path and no recognised tag is judged by its name, ignoring
   * case: "powershell" in it means legacy PowerShell, else "wsl" in it means WSL's bash.
   */
  lemma WindowsProfileNameKeywords(cfg: Config, name: string, profile: Profile, ui: UserInfo, env: Env)
    requires Configures(cfg, "windows", name, profile) && name != ""
    requires Present(profile.path).None? && SourceShell(Windows, profile.source).None?
    ensures Occurs("powershell", Lower(name)) ==> Resolve(Windows, cfg, ui, env) == PowerShellLegacy
    ensures !Occurs("powershell", Lower(name)) && Occurs("wsl", Lower(name)) ==>
      Resolve(Windows, cfg, ui, env) == WslBash
  {
    SelectsConfiguredProfile(Windows, "windows", cfg, name, profile);
    var kws := NameKeywords(Windows);
    var r := KeywordShell(Lower(name), kws);
    if Occurs("powershell", Lower(name)) {
      assert Occurs(kws[0].0, Lower(name));
    } else if Occurs("wsl", Lower(name)) {
      assert Occurs(kws[1].0, Lower(name));
    }
  }

  /**
   * On Windows a profile with no path, no recognised tag and neither keyword in its name
   * decides nothing: the result is that of an empty configuration.
   */
  lemma WindowsUnmatchedNameFallsThrough(cfg: Config, name: string, profile: Profile, ui: UserInfo, env: Env)
    requires Configures(cfg, "windows", name, profile) && name != ""
    requires Present(profile.path).None? && SourceShell(Windows, profile.source).None?
    requires !Occurs("powershell", Lower(name)) && !Occurs("wsl", Lower(name))
    ensures Resolve(Windows, cfg, ui, env) == Resolve(Windows, Cfg(map[]), ui, env)
  {
    SelectsConfiguredProfile(Windows, "windows", cfg, name, profile);
    var kws := NameKeywords(Windows);
    assert kws[0].0 == "powershell" && kws[1].0 == "wsl";
    assert KeywordShell(Lower(name), kws).None?;
    SilentConfigFallsThrough(Windows, cfg, ui, env);
  }

  /**
   * Default profile names that differ only in ASCII letter case, each listing the same
   * profile under its own name, resolve alike.
   */
  lemma NameMatchIgnoresCase(p: Platform, ns: string, cfg1: Config, cfg2: Config,
                             name1: string, name2: string, profile: Profile, ui: UserInfo, env: Env)
    requires Namespace(p) == Some(ns)
    requires Configures(cfg1, ns, name1, profile) && name1 != ""
    requires Configures(cfg2, ns, name2, profile) && name2 != ""
    requires Lower(name1) == Lower(name2)
    ensures Resolve(p, cfg1, ui, env) == Resolve(p, cfg2, ui, env)
  {
    SelectsConfiguredProfile(p, ns, cfg1, name1, profile);
    SelectsConfiguredProfile(p, ns, cfg2, name2, profile);
  }

  /**
   * When the configuration decides nothing (no name, unlisted name, or a profile with no
   * path, no recognised tag and no keyword), the result is that of an empty configuration.
   */
  lemma SilentConfigFallsThrough(p: Platform, cfg: Config, ui: UserInfo, env: Env)
    requires ConfigShell(p, cfg).None?
    ensures Resolve(p, cfg, ui, env) == Resolve(p, Cfg(map[]), ui, env)
  {
    assert ConfigShell(p, Cfg(map[])).None?;
  }

  /** A default profile name that is not in the profile table contributes nothing. */
  lemma UnlistedProfileIsIgnored(p: Platform, ns: string, cfg: Config, name: string, ui: UserInfo, env: Env)
    requires Namespace(p) == Some(ns) && cfg.Cfg?
    requires DefaultProfileKey(ns) in cfg.settings && cfg.settings[DefaultProfileKey(ns)] == ProfileName(name)
    requires name !in ReadTerminalConfig(cfg, ns).profiles
    ensures Resolve(p, cfg, ui, env) == Resolve(p, Cfg(map[]), ui, env)
  {
    SilentConfigFallsThrough(p, cfg, ui, env);
  }

  /** A configuration error is indistinguishable from a configuration that answers nothing. */
  lemma ConfigErrorActsAsAbsent(p: Platform, ui: UserInfo, env: Env)
    ensures Resolve(p, CfgError, ui, env) == Resolve(p, Cfg(map[]), ui, env)
  {
  }

  /** A user-info error is indistinguishable from a user record with no shell. */
  lemma UserInfoErrorActsAsAbsent(p: Platform, cfg: Config, env: Env)
    ensures Resolve(p, cfg, UiError, env) == Resolve(p, cfg, Ui(None), env)
  {
  }

  /** With nothing from the configuration, the user's shell beats the environment variable. */
  lemma UserInfoBeatsEnv(p: Platform, cfg: Config, shell: string, env: Env)
    requires ConfigShell(p, cfg).None? && shell != ""
    ensures Resolve(p, cfg, Ui(Some(shell)), env) == shell
  {
  }

  /**
   * With nothing from the configuration nor from user-info (absent or failing), a non-empty
   * COMSPEC (Windows) or SHELL (macOS, Linux) is returned.
   */
  lemma EnvBeatsDefault(p: Platform, cfg: Config, ui: UserInfo, env: Env, v: string)
    requires ConfigShell(p, cfg).None? && UserInfoShell(ui).None?
    requires ShellVariable(p) == Some(v) && v in env && env[v] != ""
    ensures Resolve(p, cfg, ui, env) == env[v]
  {
  }

  /** With every source silent, the platform default is returned. */
  lemma DefaultIsLastResort(p: Platform, cfg: Config, ui: UserInfo, env: Env)
    requires ConfigShell(p, cfg).None? && UserInfoShell(ui).None? && EnvShell(p, env).None?
    ensures Resolve(p, cfg, ui, env) ==
      match p
      case Windows => @"C:\Windows\System32\cmd.exe"
      case MacOS => "/bin/zsh"
      case Linux => "/bin/bash"
      case Other(_) => "/bin/sh"
  {
  }

  /**
   * An unrecognised platform reads neither the configuration nor the environment: only the
   * user's shell can displace "/bin/sh".
   */
  lemma OtherPlatformUsesUserInfoOrSh(id: string, cfg: Config, ui: UserInfo, env: Env)
    ensures Resolve(Other(id), cfg, ui, env) == UserInfoShell(ui).GetOr("/bin/sh")
  {
  }

  /**
   * Only the platform's own two keys are read: configurations that agree on them resolve
   * alike, so settings for another platform's namespace never leak in.
   */
  lemma OnlyOwnNamespaceIsRead(p: Platform, ns: string, s1: map<string, Setting>, s2: map<string, Setting>,
                               ui: UserInfo, env: Env)
    requires Namespace(p) == Some(ns)
    requires DefaultProfileKey(ns) in s1 <==> DefaultProfileKey(ns) in s2
    requires DefaultProfileKey(ns) in s1 ==> s1[DefaultProfileKey(ns)] == s2[DefaultProfileKey(ns)]
    requires ProfilesKey(ns) in s1 <==> ProfilesKey(ns) in s2
    requires ProfilesKey(ns) in s1 ==> s1[ProfilesKey(ns)] == s2[ProfilesKey(ns)]
    ensures Resolve(p, Cfg(s1), ui, env) == Resolve(p, Cfg(s2), ui, env)
  {
    assert ReadTerminalConfig(Cfg(s1), ns) == ReadTerminalConfig(Cfg(s2), ns);
  }

  /** The three namespaces use six distinct keys, so platforms never share a setting. */
  lemma NamespaceKeysAreDistinct(p: Platform, q: Platform)
    requires Namespace(p).Some? && Namespace(q).Some? && p != q
    ensures DefaultProfileKey(Namespace(p).value) != DefaultProfileKey(Namespace(q).value)
    ensures ProfilesKey(Namespace(p).value) != ProfilesKey(Namespace(q).value)
    ensures DefaultProfileKey(Namespace(p).value) != ProfilesKey(Namespace(q).value)
  {
    var a, b := Namespace(p).value, Namespace(q).value;
    assert DefaultProfileKey(a)[..15] == "defaultProfile.";
    assert ProfilesKey(b)[..9] == "profiles.";
    assert DefaultProfileKey(a)[0] != ProfilesKey(b)[0];
    if a != b {
      assert DefaultProfileKey(a)[15..] == a && DefaultProfileKey(b)[15..] == b;
      assert ProfilesKey(a)[9..] == a && ProfilesKey(b)[9..] == b;
    }
  }
}
