# Claude Code launcher extension: a Dafny model

This project models the core of an editor extension that launches the
"Claude Code" command-line tool, either in the editor's integrated terminal
or as a detached process, and stores the tool's path, launch arguments,
working directory, notification switch and terminal preference. It has four parts:

- `paths.dfy` (module `Paths`): the path token resolver `resolvePathWithEnv`,
  `normalizePath` with its error fallback, and the decision inside
  `isExecutable`. The workspace folders, the process's working directory, the
  home directory, the environment, the platform and `path.normalize` are
  fields of a `Host` value. `path.normalize` is uninterpreted, and `None` means it threw.
- `config.dfy` (module `Config`): the `ExtensionConfig` record,
  `DEFAULT_CONFIG`, the load-time overlay, `getClaudeCodePath`,
  `getWorkingDirectory` and notification gating. The class `ConfigManager`
  holds the record, which `set` and `reset` update in place, and a log of the
  effects performed on the host. Those effects are global-state and settings
  writes, notifications, prompts and opening the settings UI.
- `launcher.dfy` (module `Launcher`): `ClaudeCodeManager.launch`. It covers the
  tool-path and working-directory checks, the argument vector
  (`split(" ")`, then the blank-piece filter, then the caller's arguments),
  the command line sent to the integrated terminal and the spawn request. The
  class `ClaudeCodeManager` records each launch it performs.
- `commands.dfy` (module `Commands`): `CommandManager`, a map from command
  id to `CommandInfo` beside the append-only list of host registrations.
  Handlers are opaque identifiers, and running one is recorded.

`wrappers.dfy` holds the `Option` and `Result` datatypes.

Host writes can fail. Every operation that writes to the host takes
`failAt`, the index of the first write that throws. The effect log keeps
only the writes that completed, and the operation reports whether all of
them did. `set` changes the record in memory before it writes, so the change
stays even when a write fails. The model keeps that behaviour.

The two default terminal types stay different, as the source has them.
`DEFAULT_CONFIG` says "vscode" (src/manager/configManager.ts:17), while
loading falls back to "system" when the setting is absent
(src/manager/configManager.ts:52-55). `Config.TerminalDefaultsDisagree`
records the difference. `Config.ResetThenReload` shows what follows from it:
after a reset, the record in memory says "vscode", but a reload says "system".

## Model

| member | source | states |
|---|---|---|
| `Paths.CloseBrace` | src/utils/path.ts:32 | the end of the `[^}]+` run: the first '}' at or after the start, with no '}' before it, or the end of the string |
| `Paths.WorkspaceFolder` | src/utils/path.ts:49-55 | the first workspace folder when one is open, otherwise the process's working directory |
| `Paths.Substitute` | src/utils/path.ts:33-42 | a token's replacement is the workspace directory, the home directory, a non-empty environment value or the token text itself; `workspaceFolder` always gives the workspace directory |
| `Paths.LeadingToken` | src/utils/path.ts:32 | a recognised token is "${", then a non-empty name without '}', then '}', all at the front of the input |
| `Paths.LeadingTokenIff` | src/utils/path.ts:32 | the scanner recognises a token at the front exactly when "${" is followed by a character other than '}' and a '}' occurs later (so "${}" is never a token) |
| `Paths.ResolveToken` | src/utils/path.ts:31-43 | a token at the front becomes its substitute, and scanning resumes right after the token, so substituted text is never re-scanned |
| `Paths.ResolveNoTokenHere` | src/utils/path.ts:32 | where no token starts at the front (a '$' that opens none), the first character is copied and the scan resumes one character later; with `ResolveToken` this determines the resolution of every input |
| `Paths.ResolveLiteralPrefix` | src/utils/path.ts:32 | text without '$' passes through unchanged and does not affect how the rest is resolved |
| `Paths.ResolveIdentity` | src/utils/path.ts:31-32 | a string in which no token starts is returned unchanged |
| `Paths.WorkspaceFolderToken` | src/utils/path.ts:49-55 | `${workspaceFolder}` becomes the first workspace folder, or the process's working directory when no folder is open |
| `Paths.HomeTokens` | src/utils/path.ts:36-39 | `${home}` and `${userHome}` both become the home directory |
| `Paths.EnvironmentToken` | src/utils/path.ts:40-41 | any other `${name}` becomes the environment variable when it is set and non-empty; otherwise the exact token text is kept, and no error is raised |
| `Paths.NoRescan` | src/utils/path.ts:32 | a variable whose value is "${home}" yields "${home}" itself, not the home directory |
| `Paths.EmptyNameIsLiteral` | src/utils/path.ts:32 | "${}" is kept literally |
| `Paths.ResolveNonEmpty` | src/utils/path.ts:31-43 | on a host with non-empty directories, a non-empty input never resolves to "" |
| `Paths.NormalizePath` | src/utils/path.ts:60-67 | when `path.normalize` succeeds, the result is its value on the resolved path; when it throws, the result is the original input |
| `Paths.NormalizeNonEmpty` | src/utils/path.ts:60-67 | on such a host, a non-empty path never normalises to "" |
| `Paths.ToLower` | src/utils/path.ts:98 | lower-cases ASCII letters character by character and leaves every other character as it is |
| `Paths.IsExecutable` | src/utils/path.ts:85-107 | false when the path does not exist or `stat` throws; on win32 true exactly for the extensions ".exe", ".bat", ".cmd" and ".ps1" after lower-casing |
| `Paths.UnixExecutable` | src/utils/path.ts:100-102 | off Windows, an existing file is executable exactly when the owner, group or other execute bit of its mode is set |
| `Paths.WindowsExtensionCase` | src/utils/path.ts:96-99 | on Windows ".EXE" and ".Ps1" are accepted and ".sh" is not |
| `Config.Field` | src/manager/configManager.ts:85-87 | `config[key]` projects one field of the record, as a value of that field's type |
| `Config.ConfigManager.Get` | src/manager/configManager.ts:85-87 | `get(key)` yields a value of that field's type |
| `Config.With` | src/manager/configManager.ts:92-96 | after `config[key] = value` the field holds `value` and every other field is unchanged |
| `Config.FieldsDetermineRecord` | src/manager/configManager.ts:119-121 | a record is determined by its five fields, so a field-by-field copy equals the original |
| `Config.SettingNamesDistinct` | src/manager/configManager.ts:101-107 | each field is mirrored to its own setting |
| `Config.SettingName` | src/manager/configManager.ts:101-107 | every mirrored setting lies in the `claudeCode.` section that `openSettings` opens |
| `Config.SettingDefault` | src/manager/configManager.ts:42-55 | the per-setting fallbacks of `loadConfig` have their fields' types |
| `Config.TerminalDefaultsDisagree` | src/manager/configManager.ts:12-18 | the setting fallbacks agree with `DEFAULT_CONFIG` on four fields and differ on the terminal type ("system" against "vscode") |
| `Config.Setting` | src/manager/configManager.ts:42-55 | a setting read yields the stored value when present and the fallback otherwise |
| `Config.LoadConfig` | src/manager/configManager.ts:35-72 | all five fields come from the settings with their fallbacks; when reading the host throws, the result is exactly `DEFAULT_CONFIG` |
| `Config.LoadIgnoresSaved` | src/manager/configManager.ts:57-66 | the saved record never shows through the overlay |
| `Config.LoadWithoutSettings` | src/manager/configManager.ts:40-55 | with none of the settings present, loading yields `DEFAULT_CONFIG` except for the terminal type "system" |
| `Config.ClaudeCodePath` | src/manager/configManager.ts:165-183 | an empty configured path means `normalizePath("claude")`; any other path is normalised, and nothing is thrown |
| `Config.DefaultToolName` | src/manager/configManager.ts:169-172 | with an empty path and a normaliser that leaves "claude" alone, the tool path is "claude" |
| `Config.ClaudeCodePathNonEmpty` | src/manager/configManager.ts:174-179 | on a host with non-empty directories, the tool path is never "" |
| `Config.WorkingDirectory` | src/manager/configManager.ts:188-192 | "" when no directory is configured, otherwise the normalised configured directory |
| `Config.WorkingDirectoryEmptyIff` | src/manager/configManager.ts:189 | on such a host, the working directory is "" exactly when the configured one is |
| `Config.DefaultWorkingDirectory` | src/manager/configManager.ts:14 | the default directory resolves to the normalised workspace folder, or stays "${workspaceFolder}" when normalisation throws |
| `Config.Notification` | src/manager/configManager.ts:197-218 | at most one message, of the requested kind, and none when notifications are off |
| `Config.ApplyRemovals` | src/manager/configManager.ts:131-157 | removing settings one by one removes exactly those settings |
| `Config.SettingListed` | src/manager/configManager.ts:131-157 | `reset` removes every field's setting |
| `Config.ResetThenReload` | src/manager/configManager.ts:126-157 | after a completed reset, none of the five settings is left, and a reload yields terminal type "system" while the default record holds "vscode" |
| `Config.TerminalFromLabel` | src/manager/configManager.ts:294-297 | the picked label "系统终端" maps to "system"; every other label maps to "vscode" |
| `Config.ConfigManager.constructor` | src/manager/configManager.ts:27-30 | the record starts as the loaded one, and no effect has happened yet |
| `Config.ConfigManager.GetAll` | src/manager/configManager.ts:119-121 | returns a value whose every field agrees with `get` |
| `Config.ConfigManager.Set` | src/manager/configManager.ts:92-114 | `get(k)` becomes `v` and every other field is unchanged; the whole record is saved, then the one setting is written, stopping at the first write that throws; the memory change stays either way |
| `Config.ConfigManager.ShowNotification` | src/manager/configManager.ts:197-218 | adds one notification, or none when notifications are off; the record is unchanged |
| `Config.ConfigManager.Reset` | src/manager/configManager.ts:126-160 | the record becomes `DEFAULT_CONFIG` whatever it was; the record is saved and the five settings are removed; the confirmation is shown only when every write completed |
| `Config.ConfigManager.ConfigureClaudeCodePath` | src/manager/configManager.ts:223-241 | prompts with the current tool path and stores only a non-empty answer; a failed write gives one error notification and is not rethrown |
| `Config.ConfigManager.ConfigureLaunchArgs` | src/manager/configManager.ts:246-264 | prompts with the current arguments and stores any answer that was not cancelled, "" included |
| `Config.ConfigManager.ConfigureTerminalType` | src/manager/configManager.ts:269-303 | offers the current type and stores the picked label's terminal type; a dismissed pick changes nothing |
| `Config.ConfigManager.OpenSettings` | src/manager/configManager.ts:308-318 | opens the settings UI at "claudeCode", or shows one error notification when that fails |
| `Launcher.SplitOnSpace` | src/manager/claudeCodeManager.ts:38 | `split(" ")` yields at least one piece, and no piece contains a space |
| `Launcher.SplitAtSpace` | src/manager/claudeCodeManager.ts:38 | splitting at a space splits the two sides independently |
| `Launcher.SplitWord` | src/manager/claudeCodeManager.ts:38 | a piece without a space splits into itself |
| `Launcher.JoinSplit` | src/manager/claudeCodeManager.ts:38 | `split(" ").join(" ")` gives back the string |
| `Launcher.SplitJoin` | src/manager/claudeCodeManager.ts:83 | `join(" ").split(" ")` gives back a non-empty list of space-free pieces |
| `Launcher.TrimEmptyIff` | src/manager/claudeCodeManager.ts:38 | `trim()` yields "" exactly when every character is ECMAScript white space |
| `Launcher.NonBlank` | src/manager/claudeCodeManager.ts:38 | every kept piece is one of the pieces and does not trim to ""; every piece that does not trim to "" is kept |
| `Launcher.NonBlankAppend` | src/manager/claudeCodeManager.ts:38 | the filter distributes over concatenation, so the kept pieces stay in their order and multiplicity |
| `Launcher.NonBlankSingle` | src/manager/claudeCodeManager.ts:38 | one piece is kept unchanged exactly when it does not trim to "" |
| `Launcher.LaunchArgTokens` | src/manager/claudeCodeManager.ts:37-39 | every argument is free of spaces, is not blank, and is one of the pieces of `split(" ")` unchanged (not trimmed) |
| `Launcher.LaunchArgsAtSpace` | src/manager/claudeCodeManager.ts:37-39 | the arguments before and after a space are tokenised independently and concatenated in order |
| `Launcher.LaunchArgWord` | src/manager/claudeCodeManager.ts:37-39 | a stretch without spaces is one argument, as written, unless it is blank, when it gives none |
| `Launcher.LaunchArgsRoundTrip` | src/manager/claudeCodeManager.ts:37-39 | when no piece is blank, the arguments are exactly the pieces, and joining them gives the configured string back |
| `Launcher.TwoWords` | src/manager/claudeCodeManager.ts:37-39 | two words separated by one space become two arguments |
| `Launcher.ExtraSpacesDropped` | src/manager/claudeCodeManager.ts:37-39 | leading, doubled and trailing spaces do not become arguments |
| `Launcher.AllArgsOrder` | src/manager/claudeCodeManager.ts:40 | the configured tokens come first and the caller's arguments after them, in order; with no caller arguments it is the configured tokens |
| `Launcher.CommandLine` | src/manager/claudeCodeManager.ts:83 | the line is the tool path, one space, then the space-joined arguments |
| `Launcher.CommandLineWords` | src/manager/claudeCodeManager.ts:83 | the command line splits back into the path and the arguments when none holds a space (nothing is escaped); with no arguments it ends in a space |
| `Launcher.ChosenDirectory` | src/manager/claudeCodeManager.ts:29-30 | the caller's directory when it is non-empty, otherwise the configured one |
| `Launcher.PlanLaunch` | src/manager/claudeCodeManager.ts:22-55 | an empty tool path fails first, and an empty working directory fails next, both before any terminal or spawn; otherwise "vscode" selects the integrated terminal and every other value a detached, stdio-inheriting spawn whose shell flag is on exactly on win32 |
| `Launcher.SystemTerminalSpawns` | src/manager/claudeCodeManager.ts:92-103 | with the system terminal and both checks passed, the launch spawns the tool with the full argument vector in the chosen directory |
| `Launcher.ScenarioTokens` | src/manager/claudeCodeManager.ts:37-39 | "--debug --verbose" yields ["--debug", "--verbose"] |
| `Launcher.SpawnScenario` | src/manager/claudeCodeManager.ts:35-40 | launch arguments "--debug --verbose" plus ["--extra"] with the system terminal spawn ["--debug", "--verbose", "--extra"] |
| `Launcher.PathAlwaysAvailable` | src/manager/claudeCodeManager.ts:23-27 | on a host with non-empty directories, the "path not configured" failure cannot occur |
| `Launcher.ClaudeCodeManager.constructor` | src/manager/claudeCodeManager.ts:11-13 | keeps the store it is given, with no launch yet |
| `Launcher.ClaudeCodeManager.Launch` | src/manager/claudeCodeManager.ts:18-67 | on success, exactly one launch and one "started" notification; on failure, no launch, one error notification carrying the message, and the same error returned to the caller; the stored record is unchanged |
| `Commands.WrapperMessages` | src/manager/commandManager.ts:20-30 | the host-side wrapper shows one error message when the handler throws and none otherwise |
| `Commands.Put` | src/manager/commandManager.ts:36 | `Map.set` appends a new id at the end of the iteration order and leaves the order unchanged for a known id, keeping it free of repeats |
| `Commands.Without` | src/manager/commandManager.ts:63 | `Map.delete` leaves exactly the other ids in the iteration order, and nothing changes for an absent id |
| `Commands.WithoutAppend` | src/manager/commandManager.ts:63 | deletion distributes over concatenation, so the remaining ids keep their order |
| `Commands.WithoutSingle` | src/manager/commandManager.ts:63 | a single id is dropped when it is the deleted one and kept otherwise |
| `Commands.WithoutDistinct` | src/manager/commandManager.ts:60-71 | deleting keeps the iteration order free of repeats |
| `Commands.RegisterStep` | src/manager/commandManager.ts:90-94 | each further registration of the list extends the map, the order and the subscriptions by that one command |
| `Commands.Registrations` | src/manager/commandManager.ts:33 | one host registration per command, in list order |
| `Commands.LastRegistrationWins` | src/manager/commandManager.ts:90-94 | after registering a list, an id is bound to the last command in the list that carries it |
| `Commands.UnlistedIdUnchanged` | src/manager/commandManager.ts:90-94 | an id no command of the list carries keeps its binding, or stays unbound |
| `Commands.RegisteredIds` | src/manager/commandManager.ts:90-94 | after registering a list, the bound ids are the earlier ones plus every listed one, and no other |
| `Commands.RegisteredOrderIds` | src/manager/commandManager.ts:90-94 | after registering a list, the iteration order stays free of repeats and names the earlier ids plus every listed one |
| `Commands.Values` | src/manager/commandManager.ts:53-55 | lists the stored value of each id in iteration order |
| `Commands.ValuesCount` | src/manager/commandManager.ts:53-55 | one value per stored id |
| `Commands.ValuesCover` | src/manager/commandManager.ts:53-55 | every stored value is listed, and nothing else |
| `Commands.ValuesDistinctIds` | src/manager/commandManager.ts:53-55 | no two listed values share an id |
| `Commands.DistinctCard` | src/manager/commandManager.ts:53-55 | a list without repeats has as many elements as its set |
| `Commands.CommandManager.constructor` | src/manager/commandManager.ts:9-13 | starts with no commands, beside the context's existing subscriptions |
| `Commands.CommandManager.HasCommand` | src/manager/commandManager.ts:83-85 | an id is present exactly when it is in the map's iteration order |
| `Commands.CommandManager.GetCommand` | src/manager/commandManager.ts:76-78 | returns the stored command exactly when `hasCommand` holds, and it carries the requested id |
| `Commands.CommandManager.GetCommands` | src/manager/commandManager.ts:53-55 | returns exactly the stored values, one per distinct id |
| `Commands.CommandManager.RegisterCommand` | src/manager/commandManager.ts:18-37 | afterwards `hasCommand(c.id)` holds and `getCommand(c.id)` is `c`, replacing any earlier entry; exactly one registration is appended to the subscriptions, re-registration included |
| `Commands.CommandManager.RegisterCommands` | src/manager/commandManager.ts:90-94 | registers the commands in list order, with one subscription each |
| `Commands.CommandManager.ExecuteCommand` | src/manager/commandManager.ts:42-48 | runs exactly the stored handler; an unknown id fails with the message "命令未找到: " followed by the id, and runs nothing |
| `Commands.CommandManager.UnregisterCommand` | src/manager/commandManager.ts:60-71 | returns true exactly when the id was present; afterwards it is absent, every other entry is unchanged, and the host registration stays |
| `Commands.CommandManager.Dispose` | src/manager/commandManager.ts:99-101 | empties the map and leaves the subscriptions untouched |

## Left out

- Host I/O is not performed. Settings and global-state writes, prompts, quick picks, notifications, terminals, `spawn` and `executeCommand("workbench.action.openSettings")` appear only as recorded effects or oracle parameters.
- Async interleaving is left out. Every operation is sequential and atomic.
- `src/utils/process.ts` (the process runner with piped output and a timeout kill) is not part of this model. Its point is I/O and timing.
- `src/extension.ts` and `src/extension.test.ts` are not part of this model. They hold no logic of the core.
- `getExtension`, `getBaseName`, `getDirectoryName`, `join`, `resolve`, `relative` and `pathExists` in src/utils/path.ts only wrap `path` and `fs`. `pathExists` is the `pathExists` argument of `Paths.IsExecutable`, and `path.extname` of the file is its `ext` argument.
- Paths.ToLower: lower-cases ASCII only, where JavaScript's `toLowerCase` maps all of Unicode. For the membership test in `isExecutable` this is exact, because the only non-ASCII characters that lower-case to ASCII are the Kelvin sign (to 'k') and the dotted capital I (to "i" plus a combining dot). Neither result can spell one of the four extensions.
- Paths.Substitute: the environment lookup is case-sensitive. On Windows, `process.env` looks names up without regard to case. The lookup also ignores members inherited from `Object.prototype`. In the source, `process.env[name]` reads through the prototype chain, so an unset `${constructor}`, `${toString}`, `${valueOf}` or `${__proto__}` becomes the string form of the inherited member. The model keeps these tokens literally.
- Paths.NormalizePath: does not model a throw during resolution. `os.homedir()` and `process.cwd()` can throw inside the replacement callback, and `normalizePath` then returns its input. The home and working directories are plain values of the host here, so only a throw from `path.normalize` falls back to the input.
- Config.LoadConfig: requires the settings to hold values of their fields' types. The source reads them unchecked, and a wrongly typed setting would flow into the record. Fields that a saved record carries beyond the five are also not modelled.
- Config.ResetThenReload: models the editor's settings as a single layer. Defaults that the extension's manifest contributes, and workspace-level values, are not visible here.
- A prompt or quick pick that throws is not modelled. Cancelling is modelled as `None`.
- Host registration by `vscode.commands.registerCommand` is assumed to succeed. The editor's rejection of a duplicate command id is host behaviour outside this model.
- A handler that throws inside `executeCommand` propagates its own error after being recorded as run. What the handler does is opaque.
- `ClaudeCodeManager.dispose` does nothing and is not modelled. Neither is the `console.log` in `launch`.
