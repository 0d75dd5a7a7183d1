# Shell resolution, modelled in Dafny

This project models `getShell`, the function a VS Code extension calls to decide which shell
executable a new terminal or subprocess should run. Its inputs are:

- the host platform (`process.platform`);
- the editor's integrated-terminal configuration, read through two keys per platform
  namespace, `defaultProfile.<ns>` and `profiles.<ns>`, where `<ns>` is `windows`, `osx` or
  `linux`;
- the OS user record (`os.userInfo().shell`);
- one environment variable: `COMSPEC` on Windows, `SHELL` on macOS and Linux.

The answer is the first of six sources that yields a value:

1. the default profile's explicit `path`;
2. its well-known `source` tag (`PowerShell` or `WSL` on Windows);
3. a keyword in the profile's name, matched without regard to case (`powershell`, then
   `wsl`, on Windows);
4. the OS user's shell;
5. the environment variable;
6. a hard-coded platform default: `C:\Windows\System32\cmd.exe`, `/bin/zsh`, `/bin/bash`,
   or `/bin/sh` on an unrecognised platform.

A configuration read that raises, or a `userInfo()` call that raises, makes that one source
absent and nothing else.

The implementation file `src/utils/shell.ts` is not part of this model. The behaviour is taken
from its test suite, `src/test/shell.test.ts`, whose 21 cases each appear below as a lemma,
and from the precedence chain above.

Files:

- `optional.dfy`: `Option` and the first-present combinator.
- `ascii_text.dfy`: ASCII lower-casing and substring search.
- `shell.dfy`: the inputs as datatypes, the per-platform constant tables, one function per
  source, and the resolver.
- `shell_properties.dfy`: precedence, error isolation, namespace isolation and the Windows
  profile rules, each as a lemma over all inputs.
- `shell_scenarios.dfy`: the configuration stand-in and the 21 test cases as lemmas. Each
  case holds for every environment that lacks `SHELL` and `COMSPEC`.

The tests leave some behaviour open. The model settles it as follows, and `shell.dfy` says so
in its header:

- An empty string counts as absent for every source. That is why the result is never empty.
- An unrecognised platform has no configuration namespace and no environment variable. The
  OS user's shell is still consulted before `/bin/sh`.
- Source tags must match exactly. Name keywords match as ASCII-case-insensitive substrings.
- A source tag that names no well-known family falls on to the name keywords.
- On Windows, a default profile that is unlisted, or listed but matched by no path, tag or
  keyword, decides nothing. The OS user's shell and `COMSPEC` are then still consulted
  before `cmd.exe`. The tests for these cases run with neither set, so they equally fit an
  implementation in which the configuration itself picks `cmd.exe`.
- Name keywords are looked for only when the default profile is listed in the profile
  table. An unlisted name such as `PowerShell` therefore decides nothing.

Six cases replace `os.userInfo` a second time, in a sandbox whose shared setup has already
replaced it (`src/test/shell.test.ts:45`): lines 110-115, 140-145, 176-181, 208-216,
218-229 and 231-244. A stubbing library that refuses to wrap a method twice could make
these cases fail before `getShell()` is reached. The model takes each case at its stated
intent: the user record it describes is the one `getShell()` sees.

## Model

| member | source | states |
|---|---|---|
| Shell.PlatformOf | src/test/shell.test.ts:201-205 | only `win32`, `darwin` and `linux` are recognised (each iff); any other identifier, such as `sunos`, is an unrecognised platform |
| Shell.Namespace | src/test/shell.test.ts:14-27 | Windows reads namespace `windows`, macOS `osx`, Linux `linux`; a namespace exists exactly for these three platforms |
| Shell.ShellVariable | src/test/shell.test.ts:117-122 | an environment variable is consulted exactly on the three recognised platforms |
| Shell.ReadTerminalConfig | src/test/shell.test.ts:208-216 | a configuration that raises reads as no default profile name and an empty profile table |
| Shell.SourceShell | src/test/shell.test.ts:70-94 | on Windows, tag `PowerShell` gives `C:\Program Files\PowerShell\7\pwsh.exe` and tag `WSL` gives `/bin/bash`; no other tag, and no tag on another platform, gives anything |
| Shell.KeywordShell | src/test/shell.test.ts:96-101 | a name yields a shell iff some keyword occurs in it, and the shell is that of the earliest keyword that occurs |
| Shell.SelectedProfile | src/test/shell.test.ts:84-87 | a profile is selected only when the platform's namespace names a non-empty default profile that its table lists, and then it is exactly that profile |
| Shell.ProfileShell | src/test/shell.test.ts:63-108 | a selected profile's non-empty `path` always wins; off Windows the path is the only thing a profile can contribute |
| Shell.ConfigShell | src/test/shell.test.ts:208-216 | the configuration contributes a shell only through a selected profile, and never when it raises or on an unrecognised platform |
| Shell.EnvShell | src/test/shell.test.ts:117-122 | the environment gives a non-empty `COMSPEC` on Windows, a non-empty `SHELL` on macOS and Linux, and nothing on an unrecognised platform |
| Shell.UserInfoShell | src/test/shell.test.ts:218-229 | a `userInfo()` call that raises contributes no shell |
| Shell.Resolve | src/test/shell.test.ts:58-245 | total: every combination of inputs resolves to a non-empty path |
| Shell.GetShell | src/test/shell.test.ts:3 | `getShell()` always returns a non-empty path |
| AsciiText.Lower | src/test/shell.test.ts:96-101 | same length; each ASCII capital becomes its lower-case letter and every other character is unchanged; no capital remains |
| AsciiText.Contains | src/test/shell.test.ts:77-82 | true iff the keyword occurs as a contiguous substring of the name |
| ShellProperties.ResolveIsFirstSource | src/test/shell.test.ts:58-245 | the result is the first of the six sources, taken in precedence order, that yields a value |
| ShellProperties.EarliestSourceWins | src/test/shell.test.ts:110-158 | once a source yields a value and every earlier source is empty, that value is returned whatever later sources hold |
| ShellProperties.ResultComesFromASource | src/test/shell.test.ts:58-245 | the result is always the value of one of the six sources |
| ShellProperties.SelectsConfiguredProfile | src/test/shell.test.ts:14-27 | a non-empty default name listed in the namespace's profile table selects that profile |
| ShellProperties.ExplicitPathWins | src/test/shell.test.ts:63-68 | on any recognised platform, a selected profile's non-empty `path` is returned, whatever user-info and environment say |
| ShellProperties.SourceTagWins | src/test/shell.test.ts:70-75 | without a path, a recognised `source` tag decides, before the profile name is looked at |
| ShellProperties.WindowsSourceTags | src/test/shell.test.ts:70-94 | on Windows, tag `PowerShell` gives `C:\Program Files\PowerShell\7\pwsh.exe` and tag `WSL` gives `/bin/bash` |
| ShellProperties.WindowsProfileNameKeywords | src/test/shell.test.ts:77-101 | on Windows, a profile with no path and no recognised tag whose name contains `powershell` (any case) gives the legacy PowerShell path; otherwise, one containing `wsl` gives `/bin/bash` |
| ShellProperties.WindowsUnmatchedNameFallsThrough | src/test/shell.test.ts:103-108 | on Windows, a profile with no path, no recognised tag and neither keyword in its name resolves as if nothing were configured |
| ShellProperties.NameMatchIgnoresCase | src/test/shell.test.ts:96-101 | two configurations whose default profile names differ only in ASCII case, each listing the same profile under its own name, resolve to the same shell |
| ShellProperties.SilentConfigFallsThrough | src/test/shell.test.ts:84-108 | when the configuration decides nothing, the result equals that of an empty configuration |
| ShellProperties.UnlistedProfileIsIgnored | src/test/shell.test.ts:84-87 | a default profile name missing from the profile table resolves as if nothing were configured |
| ShellProperties.ConfigErrorActsAsAbsent | src/test/shell.test.ts:208-216 | a raising configuration resolves exactly like one that answers undefined, for every platform, user record and environment |
| ShellProperties.UserInfoErrorActsAsAbsent | src/test/shell.test.ts:218-229 | a raising `userInfo()` resolves exactly like a user record with a null shell |
| ShellProperties.UserInfoBeatsEnv | src/test/shell.test.ts:110-115 | with nothing from the configuration, a non-empty user shell is returned whatever the environment holds |
| ShellProperties.EnvBeatsDefault | src/test/shell.test.ts:117-122 | with nothing from configuration or user-info, a non-empty `COMSPEC`/`SHELL` is returned |
| ShellProperties.DefaultIsLastResort | src/test/shell.test.ts:154-194 | with every source silent, the result is `cmd.exe`, `/bin/zsh`, `/bin/bash` or `/bin/sh` by platform |
| ShellProperties.OtherPlatformUsesUserInfoOrSh | src/test/shell.test.ts:201-206 | an unrecognised platform ignores configuration and environment: the user's shell if present, else `/bin/sh` |
| ShellProperties.OnlyOwnNamespaceIsRead | src/test/shell.test.ts:17-24 | configurations that agree on the platform's two keys resolve alike |
| ShellProperties.NamespaceKeysAreDistinct | src/test/shell.test.ts:18-21 | the keys of two different platforms never coincide, so one platform's settings never reach another |
| ShellScenarios.MockConfig | src/test/shell.test.ts:14-27 | the stand-in answers the profile table under `profiles.<ns>`, the default name under `defaultProfile.<ns>` only when it is not null, and nothing else |
| ShellScenarios.WindowsProfilePath | src/test/shell.test.ts:63-68 | explicit `pwsh.exe` path is returned |
| ShellScenarios.WindowsPowerShellSource | src/test/shell.test.ts:70-75 | tag `PowerShell` without path gives PowerShell 7 |
| ShellScenarios.WindowsLegacyPowerShellByName | src/test/shell.test.ts:77-82 | bare profile `PowerShell` gives the legacy PowerShell path |
| ShellScenarios.WindowsUnlistedProfile | src/test/shell.test.ts:84-87 | unlisted `NonExistentProfile` gives `cmd.exe` |
| ShellScenarios.WindowsWslSource | src/test/shell.test.ts:89-94 | tag `WSL` gives `/bin/bash` |
| ShellScenarios.WindowsWslByName | src/test/shell.test.ts:96-101 | bare profile `Ubuntu WSL` gives `/bin/bash` |
| ShellScenarios.WindowsUnmatchedProfile | src/test/shell.test.ts:103-108 | bare profile `CommandPrompt` gives `cmd.exe` |
| ShellScenarios.WindowsUserInfoShell | src/test/shell.test.ts:110-115 | no configuration: the user-info shell is returned |
| ShellScenarios.WindowsComspec | src/test/shell.test.ts:117-122 | no configuration or user shell: `COMSPEC` is returned |
| ShellScenarios.MacProfilePath | src/test/shell.test.ts:133-138 | explicit `/usr/local/bin/fish` is returned |
| ShellScenarios.MacUserInfoShell | src/test/shell.test.ts:140-145 | the user-info shell is returned |
| ShellScenarios.MacShellVariable | src/test/shell.test.ts:147-152 | `SHELL` is returned |
| ShellScenarios.MacDefault | src/test/shell.test.ts:154-158 | `/bin/zsh` is the default |
| ShellScenarios.LinuxProfilePath | src/test/shell.test.ts:169-174 | explicit `/usr/bin/fish` is returned |
| ShellScenarios.LinuxUserInfoShell | src/test/shell.test.ts:176-181 | the user-info shell is returned |
| ShellScenarios.LinuxShellVariable | src/test/shell.test.ts:183-188 | `SHELL` is returned |
| ShellScenarios.LinuxDefault | src/test/shell.test.ts:190-194 | `/bin/bash` is the default |
| ShellScenarios.UnknownPlatformDefault | src/test/shell.test.ts:201-206 | `sunos` gives `/bin/sh` |
| ShellScenarios.ConfigErrorFallsToUserInfo | src/test/shell.test.ts:208-216 | a raising configuration on Linux falls to the user-info shell |
| ShellScenarios.UserInfoErrorFallsToShellVariable | src/test/shell.test.ts:218-229 | a raising `userInfo()` on macOS falls to `SHELL` |
| ShellScenarios.EverythingFailsOnLinux | src/test/shell.test.ts:231-244 | both reads raising and no `SHELL` on Linux gives `/bin/bash` |

## Left out

- The build configuration in `esbuild.test.js` (bundler plugins, file discovery, watch mode, logging) is not modelled. It has no behaviour to state.
- The test harness mechanics are not modelled: the Sinon sandbox, overriding `process.platform`, and saving and restoring `process.env`. The model takes the platform, configuration, user record and environment as plain values.
- The real VS Code configuration API and `os.userInfo()` are not called. Their answers and their exceptions are the `Config` and `UserInfo` datatypes.
- `src/utils/shell.ts` is not part of this model. Where its tests are silent, the model makes the documented choices listed above, and nothing here claims them as its behaviour:
  - the empty string as absent;
  - user-info consulted on an unrecognised platform;
  - the order of tag and name keyword;
  - an unrecognised tag falling on to the name;
  - on Windows, an unlisted or unmatched default profile deciding nothing, so that the user's shell and `COMSPEC` still come before `cmd.exe`;
  - name keywords looked for only in a listed default profile.
- A configuration value of the wrong JavaScript type, such as a number under `profiles.<ns>`, reads as absent. The model's `Setting` type only tells a name from a table.
- Case folding covers ASCII letters only; no Unicode case mapping is modelled.
- Shell.EnvShell: `Env` stands for the answers of Node's `process.env[name]` lookup, keyed by the exact names the resolver asks for (`COMSPEC`, `SHELL`). On a Windows host Node looks names up without regard to case, so a variable spelled `ComSpec` is read as `COMSPEC`. The model does not fold environment names; a caller must present such a variable under the name `COMSPEC`.
