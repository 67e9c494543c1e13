/**
 * The launch of one session, as the `shell:create` handler builds it
 * (electron/main.ts:97-118): which agent command runs, which shell runs it
 * with which arguments, in which directory, and with which terminal options.
 * Everything here is a function of the bypass flag, the host platform, the
 * optional working directory and the home directory.
 */
module Launch {
  import opened Wrappers

  const AgentProgram: string := "claude"
  const BypassFlag: string := "--dangerously-skip-permissions"
  const WindowsShell: string := "powershell.exe"
  const PosixShell: string := "bash"
  const TerminalName: string := "xterm-256color"
  const InitialCols: int := 80
  const InitialRows: int := 24

  /** The options handed to the pseudo-terminal spawn (the environment is inherited and not modelled). */
  datatype SpawnOptions = SpawnOptions(name: string, cols: int, rows: int, cwd: string)

  /** A complete launch: shell binary, its argument list, and the spawn options. */
  datatype LaunchSpec = LaunchSpec(shell: string, args: seq<string>, options: SpawnOptions)

  /** `os.platform() === 'win32'`. */
  predicate IsWindows(platform: string) {
    platform == "win32"
  }

  /** The agent invocation: the bare program, with the bypass flag appended only in bypass mode. */
  function AgentCommand(bypass: bool): (cmd: string)
    ensures bypass ==> cmd == AgentProgram + " " + BypassFlag
    ensures !bypass ==> cmd == AgentProgram
  {
    if bypass then "claude --dangerously-skip-permissions" else "claude"
  }

  /** PowerShell on Windows, bash everywhere else. */
  function ShellProgram(platform: string): (shell: string)
    ensures shell == WindowsShell <==> IsWindows(platform)
    ensures shell == PosixShell <==> !IsWindows(platform)
  {
    if IsWindows(platform) then "powershell.exe" else "bash"
  }

  /**
   * The shell's arguments: the command is always the last one; before it
   * stands `-Command` on Windows and the login-shell pair `-l -c` elsewhere.
   */
  function ShellArgs(platform: string, cmd: string): (args: seq<string>)
    ensures |args| == (if IsWindows(platform) then 2 else 3)
    ensures args[|args| - 1] == cmd
    ensures IsWindows(platform) ==> args[0] == "-Command"
    ensures !IsWindows(platform) ==> args[0] == "-l" && args[1] == "-c"
  {
    if IsWindows(platform) then ["-Command", cmd] else ["-l", "-c", cmd]
  }

  /**
   * `workingDir || os.homedir()`: a missing directory and the empty string
   * (which JavaScript treats as false) both fall back to the home directory.
   */
  function ResolveCwd(workingDir: Option<string>, home: string): (cwd: string)
    ensures workingDir.Some? && workingDir.value != "" ==> cwd == workingDir.value
    ensures workingDir.None? || workingDir.value == "" ==> cwd == home
    ensures cwd == "" ==> home == ""
  {
    match workingDir
    case Some(dir) => if dir != "" then dir else home
    case None => home
  }

  /** The whole launch of the `shell:create` handler. */
  function BuildLaunch(bypass: bool, platform: string, workingDir: Option<string>, home: string): (l: LaunchSpec)
    ensures l.options.name == TerminalName
    ensures l.options.cols == InitialCols && l.options.rows == InitialRows
    ensures l.options.cwd == ResolveCwd(workingDir, home)
    ensures |l.args| > 0 && l.args[|l.args| - 1] == AgentCommand(bypass)
    ensures IsWindows(platform) ==> l.shell == WindowsShell && l.args[..|l.args| - 1] == ["-Command"]
    ensures !IsWindows(platform) ==> l.shell == PosixShell && l.args[..|l.args| - 1] == ["-l", "-c"]
  {
    var cmd := AgentCommand(bypass);
    LaunchSpec(ShellProgram(platform), ShellArgs(platform, cmd),
               SpawnOptions("xterm-256color", 80, 24, ResolveCwd(workingDir, home)))
  }

  /** The launch records the mode: two launches that differ only in the flag differ in their command. */
  lemma LaunchDeterminesMode(b1: bool, b2: bool, platform: string, workingDir: Option<string>, home: string)
    ensures BuildLaunch(b1, platform, workingDir, home) == BuildLaunch(b2, platform, workingDir, home) <==> b1 == b2
  {
  }

  /** A bypass session on a POSIX host in /tmp runs `bash -l -c "claude --dangerously-skip-permissions"` in /tmp. */
  lemma BypassLaunchInTmp(platform: string, home: string)
    requires !IsWindows(platform)
    ensures BuildLaunch(true, platform, Some("/tmp"), home)
         == LaunchSpec("bash", ["-l", "-c", "claude --dangerously-skip-permissions"],
                       SpawnOptions("xterm-256color", 80, 24, "/tmp"))
  {
  }

  /** A normal session on Windows with no directory runs `powershell.exe -Command claude` in the home directory. */
  lemma NormalLaunchOnWindows(home: string)
    ensures BuildLaunch(false, "win32", None, home)
         == LaunchSpec("powershell.exe", ["-Command", "claude"], SpawnOptions("xterm-256color", 80, 24, home))
  {
  }
}
