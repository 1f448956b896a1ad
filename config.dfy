/**
 * The configuration store of `src/manager/configManager.ts`: the five-field
 * record, its load-time overlay, the derived accessors and the
 * `ConfigManager` object whose record `set` and `reset` change in place.
 *
 * Writes to the host (the extension's global state and the editor's
 * settings), notifications, prompts and the settings UI are recorded as
 * `Effect`s in the order they happen.
 */
module Config {
  import opened Wrappers
  import opened Paths

  /** `terminalType`: "system" or "vscode". */
  datatype TerminalType = System | VSCode

  /** `ExtensionConfig`. */
  datatype ExtensionConfig = ExtensionConfig(
    claudeCodePath: string,
    defaultWorkingDirectory: string,
    launchArgs: string,
    showNotifications: bool,
    terminalType: TerminalType)

  /** The keys of `ExtensionConfig`. */
  datatype Key = PathKey | WorkingDirectoryKey | LaunchArgsKey | ShowNotificationsKey | TerminalTypeKey

  /** A field value of any of the three field types. */
  datatype Value = StringValue(str: string) | BoolValue(flag: bool) | TerminalValue(terminal: TerminalType)

  /** `value` has the type that field `k` declares. */
  predicate WellTyped(k: Key, value: Value) {
    match k
    case ShowNotificationsKey => value.BoolValue?
    case TerminalTypeKey => value.TerminalValue?
    case _ => value.StringValue?
  }

  /** `DEFAULT_CONFIG`. */
  const DefaultConfig := ExtensionConfig("", "${workspaceFolder}", "", true, VSCode)

  /** The key under which the whole record is kept in the extension's global state. */
  const StateKey := "claudeCodeConfig"

  /** `config[key]`. */
  function Field(c: ExtensionConfig, k: Key): (v: Value)
    ensures WellTyped(k, v)
  {
    match k
    case PathKey => StringValue(c.claudeCodePath)
    case WorkingDirectoryKey => StringValue(c.defaultWorkingDirectory)
    case LaunchArgsKey => StringValue(c.launchArgs)
    case ShowNotificationsKey => BoolValue(c.showNotifications)
    case TerminalTypeKey => TerminalValue(c.terminalType)
  }

  /** `config[key] = value`: field `k` becomes `v` and every other field keeps its value. */
  function With(c: ExtensionConfig, k: Key, v: Value): (r: ExtensionConfig)
    requires WellTyped(k, v)
    ensures Field(r, k) == v
    ensures forall k' :: k' != k ==> Field(r, k') == Field(c, k')
  {
    match k
    case PathKey => c.(claudeCodePath := v.str)
    case WorkingDirectoryKey => c.(defaultWorkingDirectory := v.str)
    case LaunchArgsKey => c.(launchArgs := v.str)
    case ShowNotificationsKey => c.(showNotifications := v.flag)
    case TerminalTypeKey => c.(terminalType := v.terminal)
  }

  /** Two records whose five fields agree are the same record, so a copy read field by field is exact. */
  lemma FieldsDetermineRecord(a: ExtensionConfig, b: ExtensionConfig)
    requires forall k :: Field(a, k) == Field(b, k)
    ensures a == b
  {
    assert Field(a, PathKey) == Field(b, PathKey);
    assert Field(a, WorkingDirectoryKey) == Field(b, WorkingDirectoryKey);
    assert Field(a, LaunchArgsKey) == Field(b, LaunchArgsKey);
    assert Field(a, ShowNotificationsKey) == Field(b, ShowNotificationsKey);
    assert Field(a, TerminalTypeKey) == Field(b, TerminalTypeKey);
  }

  /** The editor setting that mirrors each field (`settingMap`). */
  function SettingName(k: Key): (name: string)
    ensures |name| > 11 && name[..11] == "claudeCode."
  {
    match k
    case PathKey => "claudeCode.path"
    case WorkingDirectoryKey => "claudeCode.defaultWorkingDirectory"
    case LaunchArgsKey => "claudeCode.launchArgs"
    case ShowNotificationsKey => "claudeCode.showNotifications"
    case TerminalTypeKey => "claudeCode.terminalType"
  }

  /** Every field has its own setting. */
  lemma SettingNamesDistinct(k: Key, k': Key)
    ensures SettingName(k) == SettingName(k') <==> k == k'
  {
  }

  /** The fallback `loadConfig` passes for each setting; the terminal type falls back to "system". */
  function SettingDefault(k: Key): (v: Value)
    ensures WellTyped(k, v)
  {
    match k
    case PathKey => StringValue("")
    case WorkingDirectoryKey => StringValue("${workspaceFolder}")
    case LaunchArgsKey => StringValue("")
    case ShowNotificationsKey => BoolValue(true)
    case TerminalTypeKey => TerminalValue(System)
  }

  /**
   * The setting fallbacks agree with `DEFAULT_CONFIG` on four fields and
   * disagree on the terminal type: "system" against "vscode".
   */
  lemma TerminalDefaultsDisagree()
    ensures forall k :: k != TerminalTypeKey ==> SettingDefault(k) == Field(DefaultConfig, k)
    ensures SettingDefault(TerminalTypeKey) == TerminalValue(System)
    ensures Field(DefaultConfig, TerminalTypeKey) == TerminalValue(VSCode)
  {
  }

  /** The editor settings, by setting name; a name that is absent has no value. */
  type Settings = map<string, Value>

  /** Every setting that is present holds a value of its field's type. */
  ghost predicate WellTypedSettings(s: Settings) {
    forall k :: SettingName(k) in s ==> WellTyped(k, s[SettingName(k)])
  }

  /** `getConfiguration().get(name, fallback)`. */
  function Setting(s: Settings, k: Key, fallback: Value): (v: Value)
    requires WellTypedSettings(s) && WellTyped(k, fallback)
    ensures WellTyped(k, v)
    ensures SettingName(k) !in s ==> v == fallback
    ensures SettingName(k) in s ==> v == s[SettingName(k)]
  {
    if SettingName(k) in s then s[SettingName(k)] else fallback
  }

  /**
   * `loadConfig`: `DEFAULT_CONFIG`, overlaid with the saved record, overlaid
   * with the five settings. `settings` is `None` when reading the host threw.
   */
  function LoadConfig(saved: Option<ExtensionConfig>, settings: Option<Settings>): (r: ExtensionConfig)
    requires settings.Some? ==> WellTypedSettings(settings.value)
    ensures settings.None? ==> r == DefaultConfig
    ensures settings.Some? ==> forall k :: Field(r, k) == Setting(settings.value, k, SettingDefault(k))
  {
    match settings
    case None => DefaultConfig
    case Some(s) =>
      var base := if saved.Some? then saved.value else DefaultConfig;
      base.(claudeCodePath := Setting(s, PathKey, SettingDefault(PathKey)).str,
            defaultWorkingDirectory := Setting(s, WorkingDirectoryKey, SettingDefault(WorkingDirectoryKey)).str,
            launchArgs := Setting(s, LaunchArgsKey, SettingDefault(LaunchArgsKey)).str,
            showNotifications := Setting(s, ShowNotificationsKey, SettingDefault(ShowNotificationsKey)).flag,
            terminalType := Setting(s, TerminalTypeKey, SettingDefault(TerminalTypeKey)).terminal)
  }

  /** The saved record never shows through: the settings override all five of its fields. */
  lemma LoadIgnoresSaved(a: Option<ExtensionConfig>, b: Option<ExtensionConfig>, settings: Option<Settings>)
    requires settings.Some? ==> WellTypedSettings(settings.value)
    ensures LoadConfig(a, settings) == LoadConfig(b, settings)
  {
    if settings.Some? {
      FieldsDetermineRecord(LoadConfig(a, settings), LoadConfig(b, settings));
    }
  }

  /** With none of the five settings present, loading yields the setting fallbacks, which differ from `DEFAULT_CONFIG`. */
  lemma LoadWithoutSettings(saved: Option<ExtensionConfig>, s: Settings)
    requires forall k :: SettingName(k) !in s
    ensures WellTypedSettings(s)
    ensures LoadConfig(saved, Some(s)) == DefaultConfig.(terminalType := System)
    ensures LoadConfig(saved, Some(s)) != DefaultConfig
  {
    FieldsDetermineRecord(LoadConfig(saved, Some(s)), DefaultConfig.(terminalType := System));
  }

  /** `getClaudeCodePath`: the configured path, "claude" when it is empty, normalised. */
  function ClaudeCodePath(c: ExtensionConfig, h: Host): (p: string)
    ensures c.claudeCodePath == "" ==> p == NormalizePath("claude", h)
    ensures c.claudeCodePath != "" ==> p == NormalizePath(c.claudeCodePath, h)
  {
    var path := if c.claudeCodePath == "" then "claude" else c.claudeCodePath;
    NormalizePath(path, h)
  }

  /** An empty configured path means the command `claude`, left as it is by an identity normaliser. */
  lemma DefaultToolName(c: ExtensionConfig, h: Host)
    requires c.claudeCodePath == ""
    requires h.normalize("claude") == Some("claude")
    ensures ClaudeCodePath(c, h) == "claude"
  {
    ResolveLiteralPrefix("claude", "", h);
    assert "claude" + "" == "claude";
  }

  /** On a host whose directories are non-empty the tool path is never empty. */
  lemma ClaudeCodePathNonEmpty(c: ExtensionConfig, h: Host)
    requires NonEmptyHost(h)
    ensures ClaudeCodePath(c, h) != ""
  {
    NormalizeNonEmpty(if c.claudeCodePath == "" then "claude" else c.claudeCodePath, h);
  }

  /** `getWorkingDirectory`: "" when none is configured, else the normalised configured directory. */
  function WorkingDirectory(c: ExtensionConfig, h: Host): (d: string)
    ensures c.defaultWorkingDirectory == "" ==> d == ""
    ensures c.defaultWorkingDirectory != "" ==> d == NormalizePath(c.defaultWorkingDirectory, h)
  {
    if c.defaultWorkingDirectory == "" then "" else NormalizePath(c.defaultWorkingDirectory, h)
  }

  /** On a host whose directories are non-empty the working directory is empty exactly when none is configured. */
  lemma WorkingDirectoryEmptyIff(c: ExtensionConfig, h: Host)
    requires NonEmptyHost(h)
    ensures WorkingDirectory(c, h) == "" <==> c.defaultWorkingDirectory == ""
  {
    if c.defaultWorkingDirectory != "" {
      NormalizeNonEmpty(c.defaultWorkingDirectory, h);
    }
  }

  /** The default working directory is the workspace folder (or the process's working directory), normalised. */
  lemma DefaultWorkingDirectory(h: Host)
    ensures h.normalize(WorkspaceFolder(h)).Some? ==>
      WorkingDirectory(DefaultConfig, h) == h.normalize(WorkspaceFolder(h)).value
    ensures h.normalize(WorkspaceFolder(h)).None? ==>
      WorkingDirectory(DefaultConfig, h) == "${workspaceFolder}"
  {
    WorkspaceFolderToken("", h);
    assert "${workspaceFolder}" + "" == "${workspaceFolder}";
    assert Resolve("", h) == "";
    assert WorkspaceFolder(h) + "" == WorkspaceFolder(h);
  }

  datatype NotificationKind = Info | Warning | Error

  /** An action on the host, in the order the store performs it. */
  datatype Effect =
    | SaveState(key: string, record: ExtensionConfig)      // globalState.update
    | UpdateSetting(name: string, setting: Option<Value>)   // getConfiguration().update(name, value, Global); None removes it
    | Notify(kind: NotificationKind, message: string)
    | InputPrompt(prefill: string)                          // showInputBox
    | TerminalPick(current: TerminalType)                   // showQuickPick
    | OpenSettingsUI(query: string)                         // workbench.action.openSettings

  /** `showNotification`: one message of the given kind, or nothing when notifications are off. */
  function Notification(c: ExtensionConfig, kind: NotificationKind, message: string): (e: seq<Effect>)
    ensures |e| <= 1
    ensures e == [] <==> !c.showNotifications
    ensures e != [] ==> e[0] == Notify(kind, message)
  {
    if c.showNotifications then [Notify(kind, message)] else []
  }

  /**
   * The host writes that completed when the one at index `failAt` throws
   * and stops the operation; every write completes when `failAt >= |writes|`.
   */
  function Completed(writes: seq<Effect>, failAt: nat): (done: seq<Effect>)
    ensures |done| <= |writes| && done == writes[..|done|]
    ensures |done| == |writes| <==> failAt >= |writes|
  {
    if failAt < |writes| then writes[..failAt] else writes
  }

  /** The writes of `set(k, v)`: the whole record to global state, then the one setting. */
  function SetWrites(c: ExtensionConfig, k: Key, v: Value): seq<Effect> {
    [SaveState(StateKey, c), UpdateSetting(SettingName(k), Some(v))]
  }

  /** The five settings, in the order `reset()` removes them. */
  const AllSettingNames: seq<string> := [SettingName(PathKey), SettingName(WorkingDirectoryKey),
    SettingName(LaunchArgsKey), SettingName(ShowNotificationsKey), SettingName(TerminalTypeKey)]

  /** One removal write per name, in order. */
  function Removals(names: seq<string>): (e: seq<Effect>)
    ensures |e| == |names|
  {
    if names == [] then [] else [UpdateSetting(names[0], None)] + Removals(names[1..])
  }

  /** The writes of `reset()`: the whole record, then the removal of each of the five settings. */
  function ResetWrites(): seq<Effect> {
    [SaveState(StateKey, DefaultConfig)] + Removals(AllSettingNames)
  }

  /** The setting writes among `effects`, applied in order to a single layer of settings. */
  function ApplySettingWrites(s: Settings, effects: seq<Effect>): Settings
    decreases |effects|
  {
    if effects == [] then s
    else
      var s' := match effects[0]
        case UpdateSetting(name, Some(v)) => s[name := v]
        case UpdateSetting(name, None) => s - {name}
        case _ => s;
      ApplySettingWrites(s', effects[1..])
  }

  /** Removing a list of settings one by one removes exactly those settings. */
  lemma {:induction false} ApplyRemovals(s: Settings, names: seq<string>)
    ensures ApplySettingWrites(s, Removals(names)) == s - (set n | n in names)
  {
    if names == [] {
      assert s - (set n | n in names) == s;
    } else {
      var w := Removals(names);
      assert w[0] == UpdateSetting(names[0], None);
      assert w[1..] == Removals(names[1..]);
      ApplyRemovals(s - {names[0]}, names[1..]);
      assert (s - {names[0]}) - (set n | n in names[1..]) == s - (set n | n in names);
    }
  }

  /** Each field's setting is one of those `reset()` removes. */
  lemma SettingListed(k: Key)
    ensures SettingName(k) in AllSettingNames
  {
    match k
    case PathKey => assert AllSettingNames[0] == SettingName(k);
    case WorkingDirectoryKey => assert AllSettingNames[1] == SettingName(k);
    case LaunchArgsKey => assert AllSettingNames[2] == SettingName(k);
    case ShowNotificationsKey => assert AllSettingNames[3] == SettingName(k);
    case TerminalTypeKey => assert AllSettingNames[4] == SettingName(k);
  }

  /**
   * After a completed `reset()`, reloading from the settings no longer
   * matches the record in memory: none of the five settings is left, so the
   * terminal type reloads as "system" while `DEFAULT_CONFIG` holds "vscode".
   */
  lemma ResetThenReload(s: Settings, saved: Option<ExtensionConfig>)
    ensures forall k :: SettingName(k) !in ApplySettingWrites(s, ResetWrites())
    ensures LoadConfig(saved, Some(ApplySettingWrites(s, ResetWrites()))) == DefaultConfig.(terminalType := System)
    ensures DefaultConfig.terminalType == VSCode
  {
    var w := ResetWrites();
    assert w[1..] == Removals(AllSettingNames);
    assert ApplySettingWrites(s, w) == ApplySettingWrites(s, w[1..]);
    ApplyRemovals(s, AllSettingNames);
    forall k ensures SettingName(k) !in ApplySettingWrites(s, w) {
      SettingListed(k);
    }
    LoadWithoutSettings(saved, ApplySettingWrites(s, w));
  }

  /** A terminal label picked in `configureTerminalType`: "系统终端" means "system", anything else "vscode". */
  function TerminalFromLabel(picked: string): (t: TerminalType)
    ensures t == System <==> picked == "系统终端"
  {
    if picked == "系统终端" then System else VSCode
  }

  /** The path prompt writes only a non-empty answer. */
  predicate PathAnswerAccepted(answer: Option<string>) {
    answer.Some? && answer.value != ""
  }

  /** The launch-arguments prompt writes any answer that was not cancelled, including "". */
  predicate ArgsAnswerAccepted(answer: Option<string>) {
    answer.Some?
  }

  /**
   * `ConfigManager`: the in-memory record and the effects performed on the
   * host so far.
   */
  class ConfigManager {
    var config: ExtensionConfig
    var effects: seq<Effect>

    /** The constructor loads the record. */
    constructor (saved: Option<ExtensionConfig>, settings: Option<Settings>)
      requires settings.Some? ==> WellTypedSettings(settings.value)
      ensures config == LoadConfig(saved, settings)
      ensures effects == []
    {
      config := LoadConfig(saved, settings);
      effects := [];
    }

    /** `get(key)`. */
    function Get(k: Key): (v: Value)
      reads this
      ensures WellTyped(k, v)
    {
      Field(config, k)
    }

    /** `getAll()`: a copy of the record; being a value, changing it cannot reach the store. */
    function GetAll(): (c: ExtensionConfig)
      reads this
      ensures forall k :: Field(c, k) == Get(k)
    {
      config
    }

    /**
     * `set(key, value)`. The record in memory changes first and keeps the
     * change even when a later host write throws; `ok` is false when one did.
     */
    method Set(k: Key, v: Value, failAt: nat) returns (ok: bool)
      requires WellTyped(k, v)
      modifies this
      ensures Get(k) == v
      ensures forall k' :: k' != k ==> Get(k') == old(Get(k'))
      ensures config == With(old(config), k, v)
      ensures ok <==> failAt >= 2
      ensures effects == old(effects) + Completed(SetWrites(config, k, v), failAt)
    {
      config := With(config, k, v);
      effects := effects + Completed(SetWrites(config, k, v), failAt);
      ok := failAt >= 2;
    }

    /** `showNotification(message, type)`. */
    method ShowNotification(message: string, kind: NotificationKind)
      modifies this
      ensures config == old(config)
      ensures effects == old(effects) + Notification(config, kind, message)
    {
      effects := effects + Notification(config, kind, message);
    }

    /**
     * `reset()`: the record becomes `DEFAULT_CONFIG` whatever it was; the
     * confirmation is shown only when every host write completed.
     */
    method Reset(failAt: nat) returns (ok: bool)
      modifies this
      ensures config == DefaultConfig
      ensures forall k :: Get(k) == Field(DefaultConfig, k)
      ensures ok <==> failAt >= |ResetWrites()|
      ensures effects == old(effects) + Completed(ResetWrites(), failAt)
                         + (if ok then [Notify(Info, "配置已重置到默认值")] else [])
    {
      config := DefaultConfig;
      effects := effects + Completed(ResetWrites(), failAt);
      ok := failAt >= |ResetWrites()|;
      if ok {
        ShowNotification("配置已重置到默认值", Info);
      }
    }

    /**
     * `configureClaudeCodePath`: prompt with the current tool path and store
     * a non-empty answer; a failed write is reported, not propagated.
     */
    method ConfigureClaudeCodePath(h: Host, answer: Option<string>, failAt: nat)
      modifies this
      ensures config == if PathAnswerAccepted(answer)
                        then With(old(config), PathKey, StringValue(answer.value)) else old(config)
      ensures !PathAnswerAccepted(answer) ==> effects == old(effects) + [InputPrompt(ClaudeCodePath(old(config), h))]
      ensures PathAnswerAccepted(answer) ==>
        effects == old(effects) + [InputPrompt(ClaudeCodePath(old(config), h))]
                   + Completed(SetWrites(config, PathKey, StringValue(answer.value)), failAt)
                   + (if failAt >= 2 then Notification(config, Info, "Claude Code 路径已更新")
                      else Notification(config, Error, "配置路径失败"))
    {
      effects := effects + [InputPrompt(ClaudeCodePath(config, h))];
      if answer.Some? && answer.value != "" {
        var ok := Set(PathKey, StringValue(answer.value), failAt);
        if ok {
          ShowNotification("Claude Code 路径已更新", Info);
        } else {
          ShowNotification("配置路径失败", Error);
        }
      }
    }

    /**
     * `configureLaunchArgs`: prompt with the current arguments and store any
     * answer that was not cancelled, the empty one included.
     */
    method ConfigureLaunchArgs(answer: Option<string>, failAt: nat)
      modifies this
      ensures config == if ArgsAnswerAccepted(answer)
                        then With(old(config), LaunchArgsKey, StringValue(answer.value)) else old(config)
      ensures !ArgsAnswerAccepted(answer) ==> effects == old(effects) + [InputPrompt(old(config).launchArgs)]
      ensures ArgsAnswerAccepted(answer) ==>
        effects == old(effects) + [InputPrompt(old(config).launchArgs)]
                   + Completed(SetWrites(config, LaunchArgsKey, StringValue(answer.value)), failAt)
                   + (if failAt >= 2 then Notification(config, Info, "启动参数已更新")
                      else Notification(config, Error, "配置启动参数失败"))
    {
      effects := effects + [InputPrompt(config.launchArgs)];
      if answer.Some? {
        var ok := Set(LaunchArgsKey, StringValue(answer.value), failAt);
        if ok {
          ShowNotification("启动参数已更新", Info);
        } else {
          ShowNotification("配置启动参数失败", Error);
        }
      }
    }

    /**
     * `configureTerminalType`: offer the two terminals and store the one
     * picked; `picked` is the label chosen, `None` when the pick was dismissed.
     */
    method ConfigureTerminalType(picked: Option<string>, failAt: nat)
      modifies this
      ensures config == if picked.Some?
                        then With(old(config), TerminalTypeKey, TerminalValue(TerminalFromLabel(picked.value)))
                        else old(config)
      ensures picked.None? ==> effects == old(effects) + [TerminalPick(old(config).terminalType)]
      ensures picked.Some? ==>
        effects == old(effects) + [TerminalPick(old(config).terminalType)]
                   + Completed(SetWrites(config, TerminalTypeKey, TerminalValue(TerminalFromLabel(picked.value))), failAt)
                   + (if failAt >= 2 then Notification(config, Info, "终端类型已设置为: " + picked.value)
                      else Notification(config, Error, "配置终端类型失败"))
    {
      effects := effects + [TerminalPick(config.terminalType)];
      if picked.Some? {
        var terminal := TerminalFromLabel(picked.value);
        var ok := Set(TerminalTypeKey, TerminalValue(terminal), failAt);
        if ok {
          ShowNotification("终端类型已设置为: " + picked.value, Info);
        } else {
          ShowNotification("配置终端类型失败", Error);
        }
      }
    }

    /** `openSettings`: open the settings UI at the extension's section, or report that it failed. */
    method OpenSettings(shown: bool)
      modifies this
      ensures config == old(config)
      ensures effects == old(effects) + if shown then [OpenSettingsUI("claudeCode")]
                                        else Notification(config, Error, "打开设置失败")
    {
      if shown {
        effects := effects + [OpenSettingsUI("claudeCode")];
      } else {
        ShowNotification("打开设置失败", Error);
      }
    }
  }
}
