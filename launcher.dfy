/**
 * `ClaudeCodeManager.launch` of `src/manager/claudeCodeManager.ts`: the
 * checks on the tool path and working directory, the argument vector built
 * from the configured launch arguments, and the choice between the
 * integrated terminal and a detached process. Creating a terminal and
 * spawning a process are recorded as `LaunchEffect`s.
 */
module Launcher {
  import opened Wrappers
  import opened Paths
  import opened Config

  /** `s.split(" ")`: the pieces between single spaces; "" splits into [""]. */
  function SplitOnSpace(s: string): (pieces: seq<string>)
    ensures |pieces| >= 1
    ensures forall i :: 0 <= i < |pieces| ==> ' ' !in pieces[i]
  {
    if s == [] then [""]
    else
      var rest := SplitOnSpace(s[1..]);
      if s[0] == ' ' then [""] + rest
      else [[s[0]] + rest[0]] + rest[1..]
  }

  /** `pieces.join(" ")`; the empty list joins into "". */
  function Join(pieces: seq<string>): string {
    if pieces == [] then ""
    else if |pieces| == 1 then pieces[0]
    else pieces[0] + " " + Join(pieces[1..])
  }

  /** Splitting at a space splits both sides independently. */
  lemma {:induction false} SplitAtSpace(a: string, b: string)
    ensures SplitOnSpace(a + " " + b) == SplitOnSpace(a) + SplitOnSpace(b)
  {
    if a == [] {
      assert a + " " + b == [' '] + b;
      assert ([' '] + b)[1..] == b;
    } else {
      assert (a + " " + b)[1..] == a[1..] + " " + b;
      SplitAtSpace(a[1..], b);
    }
  }

  /** A piece without a space splits into itself. */
  lemma {:induction false} SplitWord(w: string)
    requires ' ' !in w
    ensures SplitOnSpace(w) == [w]
  {
    if w != [] {
      SplitWord(w[1..]);
      assert w == [w[0]] + w[1..];
    }
  }

  /** Joining the pieces of a split gives back the string. */
  lemma {:induction false} JoinSplit(s: string)
    ensures Join(SplitOnSpace(s)) == s
  {
    if s != [] {
      JoinSplit(s[1..]);
      var rest := SplitOnSpace(s[1..]);
      if s[0] == ' ' {
        assert s == " " + s[1..];
      } else {
        JoinCons(s[0], rest);
        assert s == [s[0]] + s[1..];
      }
    }
  }

  /** Helper: prefixing a character to the first piece prefixes it to the joined string. */
  lemma JoinCons(c: char, pieces: seq<string>)
    requires |pieces| >= 1
    ensures Join([[c] + pieces[0]] + pieces[1..]) == [c] + Join(pieces)
  {
  }

  /** Splitting a join gives back the pieces, when there is at least one and none holds a space. */
  lemma {:induction false} SplitJoin(pieces: seq<string>)
    requires |pieces| >= 1
    requires forall i :: 0 <= i < |pieces| ==> ' ' !in pieces[i]
    ensures SplitOnSpace(Join(pieces)) == pieces
  {
    if |pieces| == 1 {
      SplitWord(pieces[0]);
    } else {
      SplitJoin(pieces[1..]);
      SplitAtSpace(pieces[0], Join(pieces[1..]));
      SplitWord(pieces[0]);
    }
  }

  /** ECMAScript white space and line terminators, the characters `trim` removes. */
  predicate IsWhitespace(c: char) {
    || c == '\t' || c == '\n' || c == '\U{B}' || c == '\U{C}' || c == '\r' || c == ' '
    || c == '\U{A0}' || c == '\U{1680}' || ('\U{2000}' <= c <= '\U{200A}')
    || c == '\U{2028}' || c == '\U{2029}' || c == '\U{202F}' || c == '\U{205F}' || c == '\U{3000}' || c == '\U{FEFF}'
  }

  /** `s.trimStart()`. */
  function TrimStart(s: string): string {
    if s != [] && IsWhitespace(s[0]) then TrimStart(s[1..]) else s
  }

  /** `s.trimEnd()`. */
  function TrimEnd(s: string): string {
    if s != [] && IsWhitespace(s[|s| - 1]) then TrimEnd(s[..|s| - 1]) else s
  }

  /** `s.trim()`. */
  function Trim(s: string): string {
    TrimEnd(TrimStart(s))
  }

  /** A string trims to "" exactly when every character of it is white space. */
  lemma {:induction false} TrimEmptyIff(s: string)
    ensures Trim(s) == "" <==> forall i :: 0 <= i < |s| ==> IsWhitespace(s[i])
  {
    TrimStartEmptyIff(s);
    var t := TrimStart(s);
    if t != "" {
      TrimStartKeeps(s);
      assert !IsWhitespace(t[0]);
      TrimEndKeepsFirst(t);
    }
  }

  /** Helper: `trimStart` leaves "" exactly when every character is white space. */
  lemma {:induction false} TrimStartEmptyIff(s: string)
    ensures TrimStart(s) == "" <==> forall i :: 0 <= i < |s| ==> IsWhitespace(s[i])
  {
    if s != [] && IsWhitespace(s[0]) {
      TrimStartEmptyIff(s[1..]);
      assert forall i :: 1 <= i < |s| ==> s[i] == s[1..][i - 1];
    }
  }

  /** Helper: what `trimStart` leaves does not start with white space. */
  lemma {:induction false} TrimStartKeeps(s: string)
    ensures TrimStart(s) != "" ==> !IsWhitespace(TrimStart(s)[0])
  {
    if s != [] && IsWhitespace(s[0]) {
      TrimStartKeeps(s[1..]);
    }
  }

  /** Helper: `trimEnd` of a string that starts with a non-white-space character is not empty. */
  lemma {:induction false} TrimEndKeepsFirst(t: string)
    requires t != "" && !IsWhitespace(t[0])
    ensures TrimEnd(t) != ""
  {
    if IsWhitespace(t[|t| - 1]) {
      TrimEndKeepsFirst(t[..|t| - 1]);
    }
  }

  /** `.filter((arg) => arg.trim())`: the pieces that do not trim to "", in order. */
  function NonBlank(pieces: seq<string>): (kept: seq<string>)
    ensures forall i :: 0 <= i < |kept| ==> Trim(kept[i]) != "" && kept[i] in pieces
    ensures forall p :: p in pieces && Trim(p) != "" ==> p in kept
  {
    if pieces == [] then []
    else if Trim(pieces[0]) != "" then [pieces[0]] + NonBlank(pieces[1..])
    else NonBlank(pieces[1..])
  }

  /** The filter distributes over concatenation, so it keeps the surviving pieces in their order. */
  lemma {:induction false} NonBlankAppend(a: seq<string>, b: seq<string>)
    ensures NonBlank(a + b) == NonBlank(a) + NonBlank(b)
  {
    if a == [] {
      assert a + b == b;
    } else {
      assert (a + b)[0] == a[0];
      assert (a + b)[1..] == a[1..] + b;
      NonBlankAppend(a[1..], b);
    }
  }

  /** A single piece is kept, untouched, exactly when it does not trim to "". */
  lemma NonBlankSingle(p: string)
    ensures NonBlank([p]) == if Trim(p) != "" then [p] else []
  {
    assert [p][1..] == [];
  }

  /** The argument vector contributed by the configured launch arguments: untrimmed pieces of the split. */
  function LaunchArgTokens(launchArgs: string): (tokens: seq<string>)
    ensures forall i :: 0 <= i < |tokens| ==> ' ' !in tokens[i] && Trim(tokens[i]) != ""
    ensures forall i :: 0 <= i < |tokens| ==> tokens[i] in SplitOnSpace(launchArgs)
  {
    if launchArgs == "" then [] else NonBlank(SplitOnSpace(launchArgs))
  }

  /** The arguments on either side of a space are tokenised independently and kept in order. */
  lemma LaunchArgsAtSpace(a: string, b: string)
    ensures LaunchArgTokens(a + " " + b) == LaunchArgTokens(a) + LaunchArgTokens(b)
  {
    SplitAtSpace(a, b);
    NonBlankAppend(SplitOnSpace(a), SplitOnSpace(b));
    assert NonBlank(SplitOnSpace("")) == [] by {
      assert Trim("") == "";
    }
  }

  /** A space-free stretch of the arguments is one argument, as written, unless it is blank. */
  lemma LaunchArgWord(w: string)
    requires ' ' !in w
    ensures LaunchArgTokens(w) == if Trim(w) != "" then [w] else []
  {
    if w != "" {
      SplitWord(w);
      NonBlankSingle(w);
    }
  }

  /**
   * When no piece between single spaces is blank, the tokens are exactly
   * those pieces and joining them with spaces gives the arguments back.
   */
  lemma LaunchArgsRoundTrip(launchArgs: string)
    requires launchArgs != ""
    requires forall i :: 0 <= i < |SplitOnSpace(launchArgs)| ==> Trim(SplitOnSpace(launchArgs)[i]) != ""
    ensures LaunchArgTokens(launchArgs) == SplitOnSpace(launchArgs)
    ensures Join(LaunchArgTokens(launchArgs)) == launchArgs
  {
    NonBlankKeepsAll(SplitOnSpace(launchArgs));
    JoinSplit(launchArgs);
  }

  /** Helper: a list without blank pieces passes the filter whole. */
  lemma {:induction false} NonBlankKeepsAll(pieces: seq<string>)
    requires forall i :: 0 <= i < |pieces| ==> Trim(pieces[i]) != ""
    ensures NonBlank(pieces) == pieces
  {
    if pieces != [] {
      assert Trim(pieces[0]) != "";
      NonBlankKeepsAll(pieces[1..]);
    }
  }

  /** A piece that starts with a character other than white space is kept by the filter. */
  lemma NotBlank(p: string)
    requires p != "" && !IsWhitespace(p[0])
    ensures Trim(p) != ""
  {
    TrimEmptyIff(p);
  }

  /** Two words separated by one space are the two arguments. */
  lemma TwoWords(a: string, b: string)
    requires ' ' !in a && ' ' !in b
    requires Trim(a) != "" && Trim(b) != ""
    ensures LaunchArgTokens(a + " " + b) == [a, b]
  {
    SplitAtSpace(a, b);
    SplitWord(a);
    SplitWord(b);
    NonBlankKeepsAll([a, b]);
  }

  /** Blank pieces are dropped: spaces around and between the arguments do not become arguments. */
  lemma ExtraSpacesDropped(a: string, b: string)
    requires ' ' !in a && ' ' !in b
    requires Trim(a) != "" && Trim(b) != ""
    ensures LaunchArgTokens(" " + a + "  " + b + " ") == [a, b]
  {
    var s := " " + a + "  " + b + " ";
    assert s == "" + " " + (a + " " + ("" + " " + (b + " " + "")));
    SplitAtSpace("", a + " " + ("" + " " + (b + " " + "")));
    SplitAtSpace(a, "" + " " + (b + " " + ""));
    SplitAtSpace("", b + " " + "");
    SplitAtSpace(b, "");
    SplitWord(a);
    SplitWord(b);
    var pieces := ["", a, "", b, ""];
    assert SplitOnSpace(s) == pieces;
    assert Trim("") == "";
    assert NonBlank([""]) == [];
    assert NonBlank([b, ""]) == [b];
    assert NonBlank(["", b, ""]) == [b];
    assert NonBlank([a, "", b, ""]) == [a, b];
  }

  /** The line typed into the integrated terminal: the tool path, a space, the space-joined arguments. */
  function CommandLine(path: string, args: seq<string>): (line: string)
    ensures |line| > |path| && line[..|path|] == path && line[|path|] == ' '
    ensures line[|path| + 1..] == Join(args)
  {
    path + " " + Join(args)
  }

  /**
   * Nothing is escaped: splitting the command line at spaces gives back the
   * path and the arguments when none holds a space, and with no arguments
   * the line ends in a space.
   */
  lemma CommandLineWords(path: string, args: seq<string>)
    requires ' ' !in path
    requires forall i :: 0 <= i < |args| ==> ' ' !in args[i]
    ensures args != [] ==> SplitOnSpace(CommandLine(path, args)) == [path] + args
    ensures args == [] ==> CommandLine(path, args) == path + " "
  {
    SplitAtSpace(path, Join(args));
    SplitWord(path);
    if args != [] {
      SplitJoin(args);
    }
  }

  /** `launch`'s optional argument; a `None` field is one the caller left out. */
  datatype LaunchOptions = LaunchOptions(workingDirectory: Option<string>, args: Option<seq<string>>)

  /** What a launch asks of the host. */
  datatype LaunchEffect =
    | IntegratedTerminal(name: string, cwd: string, commandLine: string)   // createTerminal, show, sendText
    | DetachedProcess(command: string, args: seq<string>, cwd: string,
                      shell: bool, detached: bool, inheritStdio: bool)     // spawn

  /** Why a launch failed. */
  datatype LaunchError = PathNotConfigured | NoWorkingDirectory | HostFailed(message: string)

  /** `error.message` of each failure. */
  function ErrorMessage(e: LaunchError): string {
    match e
    case PathNotConfigured => "Claude Code 路径未配置"
    case NoWorkingDirectory => "无可用的目录"
    case HostFailed(message) => message
  }

  /** The working directory: the caller's when it is non-empty, else the configured one. */
  function ChosenDirectory(c: ExtensionConfig, h: Host, opts: LaunchOptions): (d: string)
    ensures opts.workingDirectory.Some? && opts.workingDirectory.value != "" ==> d == opts.workingDirectory.value
    ensures !(opts.workingDirectory.Some? && opts.workingDirectory.value != "") ==> d == WorkingDirectory(c, h)
  {
    if opts.workingDirectory.Some? && opts.workingDirectory.value != "" then opts.workingDirectory.value
    else WorkingDirectory(c, h)
  }

  /** The full argument vector: the configured tokens, then the caller's arguments in order. */
  function AllArgs(c: ExtensionConfig, opts: LaunchOptions): seq<string> {
    LaunchArgTokens(c.launchArgs) + (if opts.args.Some? then opts.args.value else [])
  }

  /** The configured tokens come first and the caller's arguments after them, in order. */
  lemma AllArgsOrder(c: ExtensionConfig, opts: LaunchOptions)
    ensures opts.args.None? ==> AllArgs(c, opts) == LaunchArgTokens(c.launchArgs)
    ensures |AllArgs(c, opts)| >= |LaunchArgTokens(c.launchArgs)|
    ensures opts.args.Some? ==>
      && AllArgs(c, opts)[..|LaunchArgTokens(c.launchArgs)|] == LaunchArgTokens(c.launchArgs)
      && AllArgs(c, opts)[|LaunchArgTokens(c.launchArgs)|..] == opts.args.value
  {
  }

  /**
   * The launch `launch` performs, or the error it throws before creating a
   * terminal or spawning anything.
   */
  function PlanLaunch(c: ExtensionConfig, h: Host, opts: LaunchOptions): (r: Result<LaunchEffect, LaunchError>)
    ensures ClaudeCodePath(c, h) == "" ==> r == Failure(PathNotConfigured)
    ensures ClaudeCodePath(c, h) != "" && ChosenDirectory(c, h, opts) == "" ==> r == Failure(NoWorkingDirectory)
    ensures r.Success? <==> ClaudeCodePath(c, h) != "" && ChosenDirectory(c, h, opts) != ""
    ensures r.Success? ==> (r.value.IntegratedTerminal? <==> c.terminalType == VSCode)
    ensures r.Success? && r.value.IntegratedTerminal? ==>
      r.value.cwd == ChosenDirectory(c, h, opts) &&
      r.value.commandLine == ClaudeCodePath(c, h) + " " + Join(AllArgs(c, opts))
    ensures r.Success? && r.value.DetachedProcess? ==>
      r.value.command == ClaudeCodePath(c, h) && r.value.args == AllArgs(c, opts) &&
      r.value.cwd == ChosenDirectory(c, h, opts) &&
      r.value.detached && r.value.inheritStdio && r.value.shell == (h.platform == Win32)
  {
    var path := ClaudeCodePath(c, h);
    if path == "" then Failure(PathNotConfigured)
    else
      var cwd := ChosenDirectory(c, h, opts);
      if cwd == "" then Failure(NoWorkingDirectory)
      else
        var args := AllArgs(c, opts);
        if c.terminalType == VSCode then Success(IntegratedTerminal("Claude Code", cwd, CommandLine(path, args)))
        else Success(DetachedProcess(path, args, cwd, h.platform == Win32, true, true))
  }

  /**
   * A sample launch: with launch arguments "--debug --verbose"
   * and the system terminal, `launch({args: ["--extra"]})` spawns the tool with
   * ["--debug", "--verbose", "--extra"].
   */
  lemma SpawnScenario(c: ExtensionConfig, h: Host, cwd: string)
    requires c.launchArgs == "--debug --verbose" && c.terminalType == System
    requires ClaudeCodePath(c, h) != "" && cwd != ""
    ensures PlanLaunch(c, h, LaunchOptions(Some(cwd), Some(["--extra"])))
         == Success(DetachedProcess(ClaudeCodePath(c, h), ["--debug", "--verbose", "--extra"], cwd,
                                    h.platform == Win32, true, true))
  {
    var opts := LaunchOptions(Some(cwd), Some(["--extra"]));
    ScenarioArgs(c, opts);
    SystemTerminalSpawns(c, h, opts);
  }

  /** Helper: the argument vector of that sample launch. */
  lemma ScenarioArgs(c: ExtensionConfig, opts: LaunchOptions)
    requires c.launchArgs == "--debug --verbose" && opts.args == Some(["--extra"])
    ensures AllArgs(c, opts) == ["--debug", "--verbose", "--extra"]
  {
    ScenarioTokens();
    assert ["--debug", "--verbose"] + ["--extra"] == ["--debug", "--verbose", "--extra"];
  }

  /** Helper: with the system terminal and both checks passed, the launch is a spawn of the full argument vector. */
  lemma SystemTerminalSpawns(c: ExtensionConfig, h: Host, opts: LaunchOptions)
    requires c.terminalType == System
    requires ClaudeCodePath(c, h) != "" && ChosenDirectory(c, h, opts) != ""
    ensures PlanLaunch(c, h, opts) == Success(DetachedProcess(ClaudeCodePath(c, h), AllArgs(c, opts),
                                              ChosenDirectory(c, h, opts), h.platform == Win32, true, true))
  {
  }

  /** The launch arguments of that scenario split into two arguments. */
  lemma ScenarioTokens()
    ensures LaunchArgTokens("--debug --verbose") == ["--debug", "--verbose"]
  {
    assert "--debug --verbose" == "--debug" + " " + "--verbose";
    NotBlank("--debug");
    NotBlank("--verbose");
    assert ' ' !in "--debug";
    assert ' ' !in "--verbose";
    TwoWords("--debug", "--verbose");
  }

  /** On a host whose directories are non-empty, a launch never fails for want of a tool path. */
  lemma PathAlwaysAvailable(c: ExtensionConfig, h: Host, opts: LaunchOptions)
    requires NonEmptyHost(h)
    ensures PlanLaunch(c, h, opts) != Failure(PathNotConfigured)
  {
    ClaudeCodePathNonEmpty(c, h);
  }

  /** `ClaudeCodeManager`: launches go to the host; notifications go through the store. */
  class ClaudeCodeManager {
    const configManager: ConfigManager
    var launches: seq<LaunchEffect>

    constructor (configManager: ConfigManager)
      ensures this.configManager == configManager
      ensures launches == []
    {
      this.configManager := configManager;
      launches := [];
    }

    /**
     * `launch(options)`. `hostError` is the message of the error creating the
     * terminal or spawning the process throws, `None` when it succeeds. On
     * success one launch is recorded and "已启动" is notified; on failure
     * nothing is launched, the failure is notified and returned to the caller.
     */
    method Launch(opts: LaunchOptions, h: Host, hostError: Option<string>) returns (err: Option<LaunchError>)
      modifies this, configManager
      ensures configManager.config == old(configManager.config)
      ensures PlanLaunch(old(configManager.config), h, opts).Failure? ==>
        var e := PlanLaunch(old(configManager.config), h, opts).error;
        && err == Some(e)
        && launches == old(launches)
        && configManager.effects == old(configManager.effects)
             + Notification(configManager.config, Error, "启动 Claude Code 失败: " + ErrorMessage(e))
      ensures PlanLaunch(old(configManager.config), h, opts).Success? && hostError.Some? ==>
        && err == Some(HostFailed(hostError.value))
        && launches == old(launches)
        && configManager.effects == old(configManager.effects)
             + Notification(configManager.config, Error, "启动 Claude Code 失败: " + hostError.value)
      ensures PlanLaunch(old(configManager.config), h, opts).Success? && hostError.None? ==>
        && err == None
        && launches == old(launches) + [PlanLaunch(old(configManager.config), h, opts).value]
        && configManager.effects == old(configManager.effects)
             + Notification(configManager.config, Info, "Claude Code 已启动")
    {
      var plan := PlanLaunch(configManager.config, h, opts);
      match plan {
        case Failure(e) =>
          err := Some(e);
        case Success(effect) =>
          if hostError.Some? {
            err := Some(HostFailed(hostError.value));
          } else {
            launches := launches + [effect];
            err := None;
          }
      }
      if err.Some? {
        configManager.ShowNotification("启动 Claude Code 失败: " + ErrorMessage(err.value), Error);
      } else {
        configManager.ShowNotification("Claude Code 已启动", Info);
      }
    }
  }
}
