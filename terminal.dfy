/**
 * The bookkeeping of a terminal session (src/ai_agency_v2/terminal.py): environment-variable
 * and `cd` commands, the command history and its trim, the ids of the processes a terminal
 * launched, the dictionary snapshot, and the registry of terminals. Processes are opaque
 * handles: whether one is running is asked of an oracle, and what launching one yields is a
 * parameter.
 */
module Terminals {
  import opened Wrappers
  import opened Text

  /** A terminal id: the id asked for, or a generated uuid; never empty. */
  type TerminalId = s: string | s != [] witness "t"

  /** One history record, the `result` dictionary of a command. */
  datatype Entry = Entry(
    command: string,
    output: string,
    exitCode: int,
    directory: string,
    timestamp: string,
    processId: Option<string>,
    background: bool)

  /**
   * What creating and starting the process for a command yields: its id, whether `start()`
   * succeeded, and, for a foreground command, the combined output and `exit_code` once the
   * wait is over.
   */
  datatype Launch = Launch(processId: string, started: bool, output: string, exitCode: Option<int>)

  /**
   * The dictionary `to_dict` produces. `env_vars` and `background_process_ids` are read with
   * `.get` and a default, so a dictionary without them is accepted (`None` here).
   */
  datatype TerminalData = TerminalData(
    terminalId: string,
    baseDir: string,
    currentDir: string,
    timeout: int,
    maxHistory: int,
    envVars: Option<map<string, string>>,
    history: seq<Entry>,
    createdAt: string,
    backgroundIds: Option<set<string>>)

  /** The characters whose presence makes `NAME=value` (without `export`) not an assignment. */
  const Forbidden: string := " \t|&;<>()$`\\\"'*?[]#~=%"

  /** `any(c in s for c in chars)`. */
  predicate AnyOf(s: string, chars: string) {
    exists j :: 0 <= j < |chars| && HasChar(s, chars[j])
  }

  /** `=` is itself forbidden, so a text with `=` always has a forbidden character. */
  lemma EqualsIsForbidden(s: string)
    ensures HasChar(s, '=') ==> AnyOf(s, Forbidden)
  {
    assert Forbidden[20] == '=';
  }

  /**
   * `_is_env_var_command`: only `export NAME=...` is recognised; the second disjunct asks for a
   * `=` and for no forbidden character, and `=` is forbidden.
   */
  function IsEnvVarCommand(command: string): (r: bool)
    ensures r <==> StartsWith(Strip(command), "export ") && HasChar(Strip(command), '=')
  {
    var cmd := Strip(command);
    EqualsIsForbidden(cmd);
    (StartsWith(cmd, "export ") && HasChar(cmd, '=')) || (HasChar(cmd, '=') && !AnyOf(cmd, Forbidden))
  }

  /** `s.split(c, 1)` when it yields two parts: the text before the first `c` and the text after it. */
  function SplitAtFirst(s: string, c: char): (r: Option<(string, string)>)
    ensures r.None? <==> !HasChar(s, c)
    ensures r.Some? ==> s == r.value.0 + [c] + r.value.1 && !HasChar(r.value.0, c)
  {
    match IndexOf(s, c)
    case None => None
    case Some(i) =>
      assert s == s[..i] + [c] + s[i + 1..];
      Some((s[..i], s[i + 1..]))
  }

  predicate IsQuote(c: char) {
    c == '"' || c == '\''
  }

  /** `value[1:-1]` when `value` starts and ends with the same quote character, else `value`. */
  function Unquote(v: string): (r: string)
    ensures |v| == 1 && IsQuote(v[0]) ==> r == []
  {
    if v != [] && v[0] == v[|v| - 1] && IsQuote(v[0]) then
      (if |v| >= 2 then v[1..|v| - 1] else [])
    else v
  }

  /** One pair of matching quotes around a value is removed, and only that pair. */
  lemma UnquoteQuoted(q: char, v: string)
    requires IsQuote(q)
    ensures Unquote([q] + v + [q]) == v
  {
    var w := [q] + v + [q];
    assert w[1..|w| - 1] == v;
  }

  /** A value that does not start and end with the same quote is kept as it is. */
  lemma UnquoteUnquoted(v: string)
    requires v == [] || v[0] != v[|v| - 1] || !IsQuote(v[0])
    ensures Unquote(v) == v
  {
  }

  /** The effect of `_handle_env_var_command`: the assignment it makes, its output and exit code. */
  datatype EnvVarOutcome = EnvVarOutcome(assignment: Option<(string, string)>, output: string, exitCode: int)

  /**
   * `_handle_env_var_command` apart from the history record: the exit code is 0 exactly when an
   * assignment is made.
   */
  function EnvVarEffect(command: string): (r: EnvVarOutcome)
    ensures r.exitCode == (if r.assignment.Some? then 0 else 1)
  {
    var cmd := Strip(command);
    if StartsWith(cmd, "export ") then
      var varPart := Strip(cmd[7..]);
      match SplitAtFirst(varPart, '=')
      case Some((name, value)) =>
        var v := Unquote(value);
        EnvVarOutcome(Some((Strip(name), v)), "Environment variable " + name + " set to " + v, 0)
      case None =>
        EnvVarOutcome(None, "Invalid export command: " + cmd, 1)
    else
      match SplitAtFirst(cmd, '=')
      case Some((name, value)) =>
        var v := Unquote(value);
        EnvVarOutcome(Some((Strip(name), v)), "Environment variable " + name + " set to " + v, 0)
      case None =>
        // the two-name unpacking of a one-element split raises, and the handler reports it
        EnvVarOutcome(None, "Error setting environment variable: not enough values to unpack (expected 2, got 1)", 1)
  }

  /**
   * An assignment is made exactly when there is a `=` after `export ` or, without `export`,
   * anywhere in the command.
   */
  lemma EnvVarEffectAssigns(command: string)
    ensures EnvVarEffect(command).assignment.Some? <==>
      if StartsWith(Strip(command), "export ") then HasChar(Strip(command)[7..], '=')
      else HasChar(Strip(command), '=')
  {
    var cmd := Strip(command);
    if StartsWith(cmd, "export ") {
      StripHasChar(cmd[7..], '=');
    }
  }

  /** A command `execute_command` hands to the handler always makes an assignment. */
  lemma EnvVarCommandAssigns(command: string)
    requires IsEnvVarCommand(command)
    ensures EnvVarEffect(command).assignment.Some?
  {
    EnvVarEffectAssigns(command);
    var cmd := Strip(command);
    var k :| 0 <= k < |cmd| && cmd[k] == '=';
    assert cmd[..7] == "export ";
    assert k >= 7 by {
      if k < 7 {
        assert cmd[..7][k] == '=';
      }
    }
    assert cmd[7..][k - 7] == '=';
  }

  /**
   * `export NAME=VALUE` with no `=` in NAME and no whitespace at either end of the text after
   * `export ` assigns VALUE, with one pair of surrounding quotes removed, to NAME.
   */
  lemma ExportAssigns(name: string, value: string)
    requires name != [] && !IsSpace(name[0]) && !HasChar(name, '=')
    requires value == [] || !IsSpace(value[|value| - 1])
    ensures EnvVarEffect("export " + name + "=" + value).assignment == Some((Strip(name), Unquote(value)))
  {
    var rest := name + "=" + value;
    var command := "export " + rest;
    assert command == "export " + name + "=" + value;
    assert Strip(command) == command && Strip(rest) == rest by {
      assert command[0] == 'e' && rest[0] == name[0];
      assert command[|command| - 1] == rest[|rest| - 1];
      assert rest[|rest| - 1] == if value == [] then '=' else value[|value| - 1];
      StripNoSpace(command);
      StripNoSpace(rest);
    }
    assert StartsWith(command, "export ") && command[7..] == rest;
    SplitAtFirstOf(name, value, '=');
  }

  /** Splitting at the first `c` finds the `c` after a text without one. */
  lemma SplitAtFirstOf(n: string, v: string, c: char)
    requires !HasChar(n, c)
    ensures SplitAtFirst(n + [c] + v, c) == Some((n, v))
  {
    var s := n + [c] + v;
    assert s[|n|] == c;
    var r := SplitAtFirst(s, c);
    var n', v' := r.value.0, r.value.1;
    assert |n'| == |n|;
    assert n' == s[..|n|] == n;
    assert v' == s[|n| + 1..] == v;
  }

  /** `os.path.isabs`. */
  predicate IsAbsolute(p: string) {
    StartsWith(p, "/")
  }

  /** `os.path.join(a, b)` for a relative `b`. */
  function JoinPath(a: string, b: string): (r: string)
    requires !IsAbsolute(b)
    ensures StartsWith(r, a) && EndsWith(r, b)
  {
    if a == [] || EndsWith(a, "/") then a + b else a + "/" + b
  }

  /**
   * The directory `_handle_cd_command` tries: the text after the first space, stripped (the
   * home directory when there is no space), joined to `currentDir` when relative, normalised.
   */
  function CdTarget(command: string, currentDir: string, home: string, normalise: string -> string): string {
    var cmd := Strip(command);
    var target := match IndexOf(cmd, ' ')
      case None => home
      case Some(i) => Strip(cmd[i + 1..]);
    normalise(if IsAbsolute(target) then target else JoinPath(currentDir, target))
  }

  /** `history[-max_history:]` when the history is longer than `max_history`. */
  function Trimmed(h: seq<Entry>, maxHistory: int): (r: seq<Entry>)
    ensures maxHistory >= 1 ==>
      |r| == (if |h| <= maxHistory then |h| else maxHistory) && r == h[|h| - |r|..]
    ensures maxHistory == 0 ==> r == h
  {
    if |h| > maxHistory then PyLast(h, maxHistory) else h
  }

  /** `exit_code or -1`: a missing exit code and exit code 0 both become -1. */
  function ExitCodeOr(code: Option<int>): (r: int)
    ensures r == -1 <==> code.None? || code.value in {0, -1}
  {
    if code.None? || code.value == 0 then -1 else code.value
  }

  /** The command `execute_command` runs when it ends in ` &`: the last two characters dropped, stripped. */
  function Backgrounded(command: string): (r: string)
    requires |command| >= 2
    ensures |r| <= |command| - 2
  {
    Strip(command[..|command| - 2])
  }

  class Terminal {
    const id: TerminalId
    const baseDir: string
    const timeout: int
    const maxHistory: int
    var currentDir: string
    var history: seq<Entry>
    var envVars: map<string, string>
    var createdAt: string
    /** The keys of `processes`: one per process this terminal launched. */
    var processes: set<string>
    /** `background_processes`. */
    var background: set<string>

    /** `Terminal(...)`: `generated` is the uuid used when no id (or an empty one) is given. */
    constructor (terminalId: Option<string>, baseDir: string, timeout: int, maxHistory: int,
                 envVars: Option<map<string, string>>, generated: TerminalId, now: string)
      ensures id == if terminalId.Some? && terminalId.value != [] then terminalId.value else generated
      ensures this.baseDir == baseDir && this.timeout == timeout && this.maxHistory == maxHistory
      ensures currentDir == baseDir && history == [] && createdAt == now
      ensures this.envVars == if envVars.Some? then envVars.value else map[]
      ensures processes == {} && background == {}
    {
      id := if terminalId.Some? && terminalId.value != [] then terminalId.value else generated;
      this.baseDir := baseDir;
      this.timeout := timeout;
      this.maxHistory := maxHistory;
      currentDir := baseDir;
      history := [];
      this.envVars := if envVars.Some? then envVars.value else map[];
      createdAt := now;
      processes := {};
      background := {};
    }

    /**
     * `execute_command`: `cd` and `export` commands are handled in place and recorded; any
     * other command launches a process (its outcome is `launch`).
     */
    method ExecuteCommand(command: string, background: bool, now: string, home: string,
                          normalise: string -> string, isDir: string -> bool, launch: Launch)
      returns (result: Entry)
      modifies this
      ensures Executed(this, command, background, now, home, normalise, isDir, launch, result)
    {
      var cmd := Strip(command);
      if StartsWith(cmd, "cd ") {
        result := HandleCd(command, now, home, normalise, isDir);
      } else if IsEnvVarCommand(command) {
        result := HandleEnvVar(command, now);
        EnvVarCommandAssigns(command);
      } else {
        result := Spawn(command, background, now, launch);
      }
    }

    /**
     * The rest of `execute_command`: a trailing ` &` makes the command a background one; the
     * process is kept, recorded, and only after a successful start the history is trimmed to
     * its last `maxHistory` entries.
     */
    method Spawn(command: string, background: bool, now: string, launch: Launch) returns (result: Entry)
      modifies this
      ensures var cmd := Strip(command);
        var bg := background || EndsWith(cmd, " &");
        && result.processId == Some(launch.processId) && result.background == bg
        && result.command == (if EndsWith(cmd, " &") && !background then Backgrounded(command) else command)
        && result.directory == currentDir && result.timestamp == now
        && processes == old(processes) + {launch.processId}
        && this.background == old(this.background) + (if bg then {launch.processId} else {})
        && result.exitCode == (if !launch.started then -1 else if bg then 0 else ExitCodeOr(launch.exitCode))
        && history == if launch.started then Trimmed(old(history) + [result], maxHistory)
                      else old(history) + [result]
      ensures maxHistory >= 1 ==> history != [] && history[|history| - 1] == result
      ensures envVars == old(envVars) && currentDir == old(currentDir) && createdAt == old(createdAt)
    {
      var cmd := Strip(command);
      var run, bg := command, background;
      if EndsWith(cmd, " &") && !background {
        run, bg := Backgrounded(command), true;
      }
      var pid := launch.processId;
      processes := processes + {pid};
      if bg {
        this.background := this.background + {pid};
      }
      if !launch.started {
        result := Entry(run, "Error: Failed to start process for command '" + run + "'", -1, currentDir, now, Some(pid), bg);
        history := history + [result];
        return;
      }
      var output, exitCode;
      if !bg {
        output, exitCode := launch.output, ExitCodeOr(launch.exitCode);
      } else {
        output, exitCode := "Process started in background with ID: " + pid, 0;
      }
      result := Entry(run, output, exitCode, currentDir, now, Some(pid), bg);
      history := Trimmed(history + [result], maxHistory);
    }

    /** `_handle_env_var_command`: make the assignment, if any, and record the command. */
    method HandleEnvVar(command: string, now: string) returns (result: Entry)
      modifies this
      ensures var o := EnvVarEffect(command);
        && envVars == (if o.assignment.Some? then old(envVars)[o.assignment.value.0 := o.assignment.value.1] else old(envVars))
        && result == Entry(command, o.output, o.exitCode, currentDir, now, None, false)
      ensures history == old(history) + [result]
      ensures currentDir == old(currentDir) && createdAt == old(createdAt)
      ensures processes == old(processes) && background == old(background)
    {
      var o := EnvVarEffect(command);
      if o.assignment.Some? {
        envVars := envVars[o.assignment.value.0 := o.assignment.value.1];
      }
      result := Entry(command, o.output, o.exitCode, currentDir, now, None, false);
      history := history + [result];
    }

    /** `_handle_cd_command`: move to the target when it is a directory, and record the command. */
    method HandleCd(command: string, now: string, home: string, normalise: string -> string, isDir: string -> bool)
      returns (result: Entry)
      modifies this
      ensures var target := CdTarget(command, old(currentDir), home, normalise);
        && currentDir == (if isDir(target) then target else old(currentDir))
        && result.exitCode == (if isDir(target) then 0 else 1)
        && result.output == if isDir(target) then "Changed directory from " + old(currentDir) + " to " + target
                            else "Directory not found: " + target
      ensures result == Entry(command, result.output, result.exitCode, currentDir, now, None, false)
      ensures history == old(history) + [result]
      ensures envVars == old(envVars) && createdAt == old(createdAt)
      ensures processes == old(processes) && background == old(background)
    {
      var target := CdTarget(command, currentDir, home, normalise);
      var output, exitCode;
      if isDir(target) {
        var prev := currentDir;
        currentDir := target;
        output, exitCode := "Changed directory from " + prev + " to " + target, 0;
      } else {
        output, exitCode := "Directory not found: " + target, 1;
      }
      result := Entry(command, output, exitCode, currentDir, now, None, false);
      history := history + [result];
    }

    /**
     * `get_history`: the whole history without a limit or with one beyond its length, else
     * `history[-limit:]`; always a suffix of the history.
     */
    function GetHistory(limit: Option<int>): (r: seq<Entry>)
      reads this
      ensures limit.None? || limit.value > |history| || limit.value == 0 ==> r == history
      ensures limit.Some? && 1 <= limit.value <= |history| ==> r == history[|history| - limit.value..]
      ensures |r| <= |history| && r == history[|history| - |r|..]
    {
      if limit.None? || limit.value > |history| then history else PyLast(history, limit.value)
    }

    /**
     * `kill_process`: unknown ids give False; otherwise the process is stopped if it is running
     * (`stopped` holds the ids whose `stop()` is called) and it leaves the background set,
     * though its handle stays in `processes`.
     */
    method KillProcess(pid: string, running: string -> bool) returns (killed: bool, stopped: set<string>)
      modifies this
      ensures killed <==> pid in old(processes)
      ensures stopped == if killed && running(pid) then {pid} else {}
      ensures background == if killed then old(background) - {pid} else old(background)
      ensures processes == old(processes) && history == old(history) && envVars == old(envVars)
      ensures currentDir == old(currentDir) && createdAt == old(createdAt)
    {
      if pid !in processes {
        return false, {};
      }
      stopped := if running(pid) then {pid} else {};
      if pid in background {
        background := background - {pid};
      }
      killed := true;
    }

    /** The processes `kill_all_processes` stops: the running ones, background ones only when asked. */
    ghost function Stoppable(includeBackground: bool, running: string -> bool): set<string>
      reads this
    {
      set pid | pid in processes && running(pid) && (includeBackground || pid !in background)
    }

    /** `kill_all_processes`: stops every running process (background ones only if asked) and counts them. */
    method KillAllProcesses(includeBackground: bool, running: string -> bool) returns (count: nat, stopped: set<string>)
      ensures stopped == Stoppable(includeBackground, running)
      ensures count == |stopped|
      ensures forall pid :: pid in stopped ==> pid in processes && running(pid)
      ensures !includeBackground ==> stopped !! background
    {
      var todo := processes;
      count, stopped := 0, {};
      while todo != {}
        invariant todo <= processes
        invariant stopped == set pid | pid in processes - todo && running(pid) && (includeBackground || pid !in background)
        invariant count == |stopped|
        decreases |todo|
      {
        var pid :| pid in todo;
        if running(pid) && (includeBackground || pid !in background) {
          stopped, count := stopped + {pid}, count + 1;
        }
        todo := todo - {pid};
      }
    }

    /** `to_dict`: everything but the process handles; the background ids as a collection. */
    function ToDict(): (d: TerminalData)
      reads this
    {
      TerminalData(id, baseDir, currentDir, timeout, maxHistory, Some(envVars), history, createdAt, Some(background))
    }

    /**
     * `from_dict`: a terminal with the saved fields and no process handles. Loading what
     * `to_dict` saved gives back the same dictionary.
     */
    static method FromDict(data: TerminalData, generated: TerminalId, now: string) returns (t: Terminal)
      ensures fresh(t) && t.processes == {}
      ensures t.ToDict() == data.(
        terminalId := if data.terminalId != [] then data.terminalId else generated,
        envVars := Some(if data.envVars.Some? then data.envVars.value else map[]),
        backgroundIds := Some(if data.backgroundIds.Some? then data.backgroundIds.value else {}))
      ensures data.terminalId != [] && data.envVars.Some? && data.backgroundIds.Some? ==> t.ToDict() == data
    {
      t := new Terminal(Some(data.terminalId), data.baseDir, data.timeout, data.maxHistory,
                        Some(if data.envVars.Some? then data.envVars.value else map[]), generated, now);
      t.currentDir := data.currentDir;
      t.history := data.history;
      t.createdAt := data.createdAt;
      t.background := if data.backgroundIds.Some? then data.backgroundIds.value else {};
    }
  }

  /**
   * What `execute_command` does to terminal `t`: `cd` and `export` commands are recorded with no
   * process; `cd` moves only to an existing directory; an env-var command makes its assignment;
   * any other command launches a process (its outcome is `launch`), recorded with its exit code
   * and, after a successful start, with the history trimmed.
   */
  twostate predicate Executed(t: Terminal, command: string, background: bool, now: string, home: string,
                              normalise: string -> string, isDir: string -> bool, launch: Launch, result: Entry)
    reads t
  {
    var cmd := Strip(command);
    && (StartsWith(cmd, "cd ") || IsEnvVarCommand(command) ==>
          && t.history == old(t.history) + [result]
          && result.command == command && result.processId.None? && !result.background
          && result.directory == t.currentDir && result.timestamp == now
          && t.processes == old(t.processes) && t.background == old(t.background))
    && (StartsWith(cmd, "cd ") ==>
          var target := CdTarget(command, old(t.currentDir), home, normalise);
          && t.currentDir == (if isDir(target) then target else old(t.currentDir))
          && result.exitCode == (if isDir(target) then 0 else 1)
          && t.envVars == old(t.envVars))
    && (!StartsWith(cmd, "cd ") && IsEnvVarCommand(command) ==>
          var o := EnvVarEffect(command);
          && o.assignment.Some? && result.exitCode == 0
          && t.envVars == old(t.envVars)[o.assignment.value.0 := o.assignment.value.1]
          && t.currentDir == old(t.currentDir))
    && (!StartsWith(cmd, "cd ") && !IsEnvVarCommand(command) ==>
          var bg := background || EndsWith(cmd, " &");
          && result.processId == Some(launch.processId) && result.background == bg
          && result.command == (if EndsWith(cmd, " &") && !background then Backgrounded(command) else command)
          && t.processes == old(t.processes) + {launch.processId}
          && t.background == old(t.background) + (if bg then {launch.processId} else {})
          && t.envVars == old(t.envVars) && t.currentDir == old(t.currentDir)
          && result.exitCode == (if !launch.started then -1 else if bg then 0 else ExitCodeOr(launch.exitCode))
          && t.history == if launch.started then Trimmed(old(t.history) + [result], t.maxHistory)
                          else old(t.history) + [result])
    && (t.maxHistory >= 1 ==> t.history != [] && t.history[|t.history| - 1] == result)
    && t.createdAt == old(t.createdAt)
  }

  /** `TerminalManager`: the registry of terminals by id, and the defaults for new ones. */
  class TerminalManager {
    var terminals: map<string, Terminal>
    const defaultBaseDir: string
    const defaultTimeout: int
    const defaultMaxHistory: int
    const defaultEnvVars: map<string, string>

    /** Every terminal is registered under its own id. */
    predicate Valid()
      reads this
    {
      forall k :: k in terminals ==> terminals[k].id == k
    }

    /** A manager with no terminals (the ones saved on disk are not loaded here). */
    constructor (baseDir: string, timeout: int, maxHistory: int, envVars: Option<map<string, string>>)
      ensures Valid() && terminals == map[]
      ensures defaultBaseDir == baseDir && defaultTimeout == timeout && defaultMaxHistory == maxHistory
      ensures defaultEnvVars == if envVars.Some? then envVars.value else map[]
    {
      terminals := map[];
      defaultBaseDir, defaultTimeout, defaultMaxHistory := baseDir, timeout, maxHistory;
      defaultEnvVars := if envVars.Some? then envVars.value else map[];
    }

    /**
     * `create_terminal`: refuses an id already registered; otherwise registers exactly one new
     * terminal, with each missing or falsy setting taken from the defaults and the given
     * environment variables overriding the default ones.
     */
    method CreateTerminal(terminalId: Option<string>, baseDir: Option<string>, timeout: Option<int>,
                          maxHistory: Option<int>, envVars: Option<map<string, string>>,
                          generated: TerminalId, now: string)
      returns (r: Result<Terminal, Raised>)
      requires Valid()
      modifies this
      ensures Valid()
      ensures terminalId.Some? && terminalId.value != [] && terminalId.value in old(terminals) ==>
        r == Err(ValueError("Terminal with ID " + terminalId.value + " already exists")) && terminals == old(terminals)
      ensures !(terminalId.Some? && terminalId.value != [] && terminalId.value in old(terminals)) ==>
        && r.Ok? && fresh(r.value)
        && r.value.id == (if terminalId.Some? && terminalId.value != [] then terminalId.value else generated)
        && terminals == old(terminals)[r.value.id := r.value]
        && r.value.baseDir == (if baseDir.Some? && baseDir.value != [] then baseDir.value else defaultBaseDir)
        && r.value.timeout == (if timeout.Some? && timeout.value != 0 then timeout.value else defaultTimeout)
        && r.value.maxHistory == (if maxHistory.Some? && maxHistory.value != 0 then maxHistory.value else defaultMaxHistory)
        && r.value.envVars == defaultEnvVars + (if envVars.Some? then envVars.value else map[])
        && r.value.history == [] && r.value.processes == {} && r.value.background == {}
    {
      if terminalId.Some? && terminalId.value != [] && terminalId.value in terminals {
        return Err(ValueError("Terminal with ID " + terminalId.value + " already exists"));
      }
      var t := new Terminal(terminalId,
                            if baseDir.Some? && baseDir.value != [] then baseDir.value else defaultBaseDir,
                            if timeout.Some? && timeout.value != 0 then timeout.value else defaultTimeout,
                            if maxHistory.Some? && maxHistory.value != 0 then maxHistory.value else defaultMaxHistory,
                            Some(defaultEnvVars + (if envVars.Some? then envVars.value else map[])),
                            generated, now);
      terminals := terminals[t.id := t];
      r := Ok(t);
    }

    /** `get_terminal`. */
    function GetTerminal(terminalId: string): (r: Option<Terminal>)
      reads this
      requires Valid()
      ensures r.Some? <==> terminalId in terminals
      ensures r.Some? ==> r.value.id == terminalId
    {
      if terminalId in terminals then Some(terminals[terminalId]) else None
    }

    /** `delete_terminal`: True exactly when the id was registered, and then it no longer is. */
    method DeleteTerminal(terminalId: string) returns (deleted: bool)
      requires Valid()
      modifies this
      ensures Valid()
      ensures deleted <==> terminalId in old(terminals)
      ensures terminals == old(terminals) - {terminalId}
    {
      deleted := terminalId in terminals;
      if deleted {
        terminals := terminals - {terminalId};
      }
    }

    /**
     * `run_command`: an unknown id raises; otherwise the command runs in the foreground on that
     * terminal, with the effect `execute_command` has there, and its history entry is returned.
     */
    method RunCommand(terminalId: string, command: string, now: string, home: string,
                      normalise: string -> string, isDir: string -> bool, launch: Launch)
      returns (r: Result<Entry, Raised>)
      requires Valid()
      modifies if terminalId in terminals then {terminals[terminalId]} else {}
      ensures terminalId !in terminals ==> r == Err(ValueError("Terminal with ID " + terminalId + " not found"))
      ensures terminalId in terminals ==> r.Ok?
      ensures terminalId in terminals ==>
        Executed(terminals[terminalId], command, false, now, home, normalise, isDir, launch, r.value)
      ensures terminalId in terminals && terminals[terminalId].maxHistory >= 1 ==>
        var h := terminals[terminalId].history;
        h != [] && h[|h| - 1] == r.value
    {
      var t := GetTerminal(terminalId);
      if t.None? {
        return Err(ValueError("Terminal with ID " + terminalId + " not found"));
      }
      var result := t.value.ExecuteCommand(command, false, now, home, normalise, isDir, launch);
      r := Ok(result);
    }
  }
}
