/**
 * Path token resolution and the executable check of `src/utils/path.ts`.
 *
 * The workspace, the working directory of the process, the home directory,
 * the environment, the platform and `path.normalize` are all read from a
 * `Host` value, so that every function here is pure.
 */
module Paths {
  import opened Wrappers

  /** The platforms named by the `Platform` enum, and any other `process.platform` value. */
  datatype Platform = Win32 | Darwin | Linux | OtherPlatform(name: string)

  /**
   * What the path helpers read from the surrounding process and editor.
   * `normalize` stands for `path.normalize`: `None` means that it threw.
   */
  datatype Host = Host(
    workspaceFolders: seq<string>,
    cwd: string,
    home: string,
    env: map<string, string>,
    platform: Platform,
    normalize: string -> Option<string>)

  /** The path of the first workspace folder, or the process's working directory when no folder is open. */
  function WorkspaceFolder(h: Host): (d: string)
    ensures d in h.workspaceFolders || d == h.cwd
    ensures h.workspaceFolders != [] ==> d == h.workspaceFolders[0]
  {
    if |h.workspaceFolders| > 0 then h.workspaceFolders[0] else h.cwd
  }

  /** The literal text of a token `${name}`. */
  function TokenText(name: string): string {
    "${" + name + "}"
  }

  /** The replacement the resolver's switch computes for the token `${name}`. */
  function Substitute(name: string, h: Host): (r: string)
    ensures r == WorkspaceFolder(h) || r == h.home || (r != "" && r in h.env.Values) || r == TokenText(name)
    ensures name == "workspaceFolder" ==> r == WorkspaceFolder(h)
  {
    if name == "workspaceFolder" then WorkspaceFolder(h)
    else if name == "home" || name == "userHome" then h.home
    else if name in h.env && h.env[name] != "" then h.env[name]
    else TokenText(name)
  }

  /** The index of the first '}' in `s`, or `|s|` when there is none. */
  function CloseBrace(s: string): (k: nat)
    ensures k <= |s|
    ensures k < |s| ==> s[k] == '}'
    ensures forall i :: 0 <= i < k ==> s[i] != '}'
  {
    if s == [] then 0
    else if s[0] == '}' then 0
    else 1 + CloseBrace(s[1..])
  }

  /**
   * The name of the token that `s` starts with, if any: `${`, then the
   * non-empty run of characters before the first '}', then that '}'.
   */
  function LeadingToken(s: string): (name: Option<string>)
    ensures name.Some? ==> |name.value| > 0 && '}' !in name.value
    ensures name.Some? ==> |name.value| + 3 <= |s| && s[..|name.value| + 3] == TokenText(name.value)
  {
    if |s| >= 2 && s[0] == '$' && s[1] == '{' then
      var k := 2 + CloseBrace(s[2..]);
      if 2 < k < |s| then
        assert s[..k + 1] == "${" + s[2..k] + "}";
        Some(s[2..k])
      else None
    else None
  }

  /**
   * `resolvePathWithEnv`: one left-to-right pass that replaces every token
   * by its substitute; the replacement text is not scanned again.
   */
  function Resolve(s: string, h: Host): (r: string)
    decreases |s|
  {
    if s == [] then []
    else match LeadingToken(s)
      case Some(name) => Substitute(name, h) + Resolve(s[|name| + 3..], h)
      case None => [s[0]] + Resolve(s[1..], h)
  }

  /**
   * A token starts at index `i` of `s`: a "${" whose next character is not
   * '}' and which is followed, somewhere later, by a '}'.
   */
  ghost predicate TokenStart(s: string, i: int) {
    0 <= i && i + 2 < |s| && s[i] == '$' && s[i + 1] == '{' && s[i + 2] != '}' && '}' in s[i + 3..]
  }

  /** No token starts anywhere in `s`. */
  ghost predicate NoToken(s: string) {
    forall i :: 0 <= i < |s| ==> !TokenStart(s, i)
  }

  /** The scanner recognises a token at the front of `s` exactly when one starts there. */
  lemma LeadingTokenIff(s: string)
    ensures LeadingToken(s).Some? <==> TokenStart(s, 0)
  {
    if LeadingToken(s).Some? {
      var n := LeadingToken(s).value;
      assert s[2] == s[..|n| + 3][2] == n[0];
      assert s[|n| + 2] == s[..|n| + 3][|n| + 2] == '}';
      assert s[3..][|n| - 1] == '}';
    }
  }

  /**
   * Where no token starts at the front (a lone '$', "${}", or "${" without a
   * later '}'), the first character is copied and the scan moves on by one.
   */
  lemma ResolveNoTokenHere(s: string, h: Host)
    requires s != [] && !TokenStart(s, 0)
    ensures Resolve(s, h) == [s[0]] + Resolve(s[1..], h)
  {
    LeadingTokenIff(s);
  }

  /** A token at the front of the input becomes its substitute, and scanning resumes right after it. */
  lemma {:induction false} ResolveToken(name: string, rest: string, h: Host)
    requires |name| > 0 && '}' !in name
    ensures Resolve(TokenText(name) + rest, h) == Substitute(name, h) + Resolve(rest, h)
  {
    var s := TokenText(name) + rest;
    CloseBraceAt(name, rest);
    assert s[2..] == name + "}" + rest;
    assert s[2..2 + |name|] == name;
    assert s[|name| + 3..] == rest;
  }

  /** Helper: the first '}' of `name + "}" + rest` is the one right after `name`. */
  lemma {:induction false} CloseBraceAt(name: string, rest: string)
    requires '}' !in name
    ensures CloseBrace(name + "}" + rest) == |name|
  {
    if name != [] {
      assert (name + "}" + rest)[1..] == name[1..] + "}" + rest;
      CloseBraceAt(name[1..], rest);
    }
  }

  /** A prefix without '$' is copied through unchanged. */
  lemma {:induction false} ResolveLiteralPrefix(a: string, b: string, h: Host)
    requires '$' !in a
    ensures Resolve(a + b, h) == a + Resolve(b, h)
  {
    if a != [] {
      assert (a + b)[0] == a[0] != '$';
      assert (a + b)[1..] == a[1..] + b;
      calc {
        Resolve(a + b, h);
        { ResolveNoTokenHere(a + b, h); }
        [a[0]] + Resolve(a[1..] + b, h);
        { ResolveLiteralPrefix(a[1..], b, h); }
        [a[0]] + (a[1..] + Resolve(b, h));
        { assert a == [a[0]] + a[1..]; }
        a + Resolve(b, h);
      }
    } else {
      assert a + b == b;
    }
  }

  /** A string in which no token starts is returned unchanged. */
  lemma {:induction false} ResolveIdentity(s: string, h: Host)
    requires NoToken(s)
    ensures Resolve(s, h) == s
  {
    if s != [] {
      LeadingTokenIff(s);
      assert !TokenStart(s, 0);
      forall i | 0 <= i < |s[1..]|
        ensures !TokenStart(s[1..], i)
      {
        assert !TokenStart(s, i + 1);
      }
      ResolveIdentity(s[1..], h);
    }
  }

  /** `${workspaceFolder}` becomes the first workspace folder, or the working directory when none is open. */
  lemma WorkspaceFolderToken(rest: string, h: Host)
    ensures Resolve("${workspaceFolder}" + rest, h)
         == (if |h.workspaceFolders| > 0 then h.workspaceFolders[0] else h.cwd) + Resolve(rest, h)
  {
    assert "${workspaceFolder}" == TokenText("workspaceFolder");
    ResolveToken("workspaceFolder", rest, h);
  }

  /** `${home}` and `${userHome}` both become the home directory. */
  lemma HomeTokens(rest: string, h: Host)
    ensures Resolve("${home}" + rest, h) == h.home + Resolve(rest, h)
    ensures Resolve("${userHome}" + rest, h) == h.home + Resolve(rest, h)
  {
    assert "${home}" == TokenText("home");
    assert "${userHome}" == TokenText("userHome");
    ResolveToken("home", rest, h);
    ResolveToken("userHome", rest, h);
  }

  /**
   * Any other token becomes the environment variable of that name when it is
   * set and non-empty; otherwise its exact text is kept.
   */
  lemma EnvironmentToken(name: string, rest: string, h: Host)
    requires |name| > 0 && '}' !in name
    requires name != "workspaceFolder" && name != "home" && name != "userHome"
    ensures name in h.env && h.env[name] != "" ==>
      Resolve(TokenText(name) + rest, h) == h.env[name] + Resolve(rest, h)
    ensures !(name in h.env && h.env[name] != "") ==>
      Resolve(TokenText(name) + rest, h) == TokenText(name) + Resolve(rest, h)
  {
    ResolveToken(name, rest, h);
  }

  /** Substituted text is not scanned again: a variable whose value is itself a token stays as that token. */
  lemma NoRescan(h: Host)
    requires "A" in h.env && h.env["A"] == "${home}"
    ensures Resolve("${A}", h) == "${home}"
  {
    assert "${A}" == TokenText("A") + "";
    ResolveToken("A", "", h);
  }

  /** `${}` is not a token: it is kept as it is. */
  lemma EmptyNameIsLiteral(h: Host)
    ensures Resolve("${}", h) == "${}"
  {
    ResolveIdentity("${}", h);
  }

  /** The host directories are non-empty and normalising a non-empty path never yields the empty string. */
  ghost predicate NonEmptyHost(h: Host) {
    && WorkspaceFolder(h) != ""
    && h.home != ""
    && forall p :: p != "" ==> h.normalize(p) != Some("")
  }

  /** On a host whose directories are non-empty, a non-empty input never resolves to the empty string. */
  lemma ResolveNonEmpty(s: string, h: Host)
    requires NonEmptyHost(h) && s != []
    ensures Resolve(s, h) != []
  {
    match LeadingToken(s)
    case Some(name) =>
      assert |Substitute(name, h)| > 0;
    case None =>
  }

  /**
   * `normalizePath`: resolve the tokens, then normalise; when that throws,
   * the original input comes back unchanged.
   */
  function NormalizePath(s: string, h: Host): (r: string)
    ensures h.normalize(Resolve(s, h)).None? ==> r == s
    ensures h.normalize(Resolve(s, h)).Some? ==> r == h.normalize(Resolve(s, h)).value
  {
    match h.normalize(Resolve(s, h))
    case Some(p) => p
    case None => s
  }

  /** On a host whose directories are non-empty, a non-empty path never normalises to the empty string. */
  lemma NormalizeNonEmpty(s: string, h: Host)
    requires NonEmptyHost(h) && s != []
    ensures NormalizePath(s, h) != []
  {
    ResolveNonEmpty(s, h);
  }

  /** ASCII lower-casing, standing for `toLowerCase` (the extensions tested below are ASCII). */
  function ToLower(s: string): (r: string)
    ensures |r| == |s|
    ensures forall i :: 0 <= i < |s| ==> r[i] == (if 'A' <= s[i] <= 'Z' then (s[i] as int + 32) as char else s[i])
  {
    if s == [] then []
    else [if 'A' <= s[0] <= 'Z' then (s[0] as int + 32) as char else s[0]] + ToLower(s[1..])
  }

  /** The extensions Windows accepts as executable. */
  const WindowsExecutables: seq<string> := [".exe", ".bat", ".cmd", ".ps1"]

  /** The execute bits of a file mode: owner 0o100, group 0o010 and others 0o001. */
  const ExecuteBits: bv32 := 0x49

  /**
   * `isExecutable`. `pathExists` is the answer of `pathExists`, `mode` the file
   * mode from `fs.stat` (`None` when it threw) and `ext` the result of
   * `path.extname` on the file path.
   */
  function IsExecutable(pathExists: bool, mode: Option<bv32>, ext: string, platform: Platform): (r: bool)
    ensures !pathExists || mode.None? ==> !r
    ensures pathExists && mode.Some? && platform == Win32 ==> (r <==> ToLower(ext) in WindowsExecutables)
  {
    if !pathExists then false
    else match mode
      case None => false
      case Some(m) =>
        if platform == Win32 then ToLower(ext) in WindowsExecutables
        else m & ExecuteBits != 0
  }

  /** Outside Windows an existing file is executable exactly when the owner, group or others may execute it. */
  lemma UnixExecutable(mode: bv32, ext: string, platform: Platform)
    requires platform != Win32
    ensures IsExecutable(true, Some(mode), ext, platform)
        <==> (mode & 0x40 != 0 || mode & 0x8 != 0 || mode & 0x1 != 0)
  {
  }

  /** On Windows the extension is compared without regard to ASCII case. */
  lemma WindowsExtensionCase(mode: bv32)
    ensures IsExecutable(true, Some(mode), ".EXE", Win32)
    ensures IsExecutable(true, Some(mode), ".Ps1", Win32)
    ensures !IsExecutable(true, Some(mode), ".sh", Win32)
  {
    assert ToLower(".EXE") == ".exe";
    assert ToLower(".Ps1") == ".ps1";
    assert ToLower(".sh") == ".sh";
  }
}
