/**
 * The `CLIHarness` value object: an immutable description of one command
 * invocation (command, argv, stdin, env, spawn options, shell flag), the
 * copy-with-override derivations built on it, the arguments it would hand to
 * the process spawner, and the `Result` wrapper around a finished process.
 *
 * The shell-style tokenizer and joiner of Ruby's standard library are not
 * modelled: every operation that needs them receives them as a `Shellwords`
 * value. The tokenizer may reject its input (Ruby raises ArgumentError on an
 * unmatched quote); which inputs it rejects, and how it splits the others,
 * is left open.
 */
module CliHarness {
  import opened Wrappers

  // ---------------------------------------------------------------------
  // Data model
  // ---------------------------------------------------------------------

  /** Environment variables added to (or overriding) the child's environment. */
  type Env = map<string, string>

  /** A spawn-option value; the harness passes these through without reading them. */
  datatype OptionValue = Text(text: string) | Number(number: int) | Flag(flag: bool)

  /** Keyword options for the spawner, keyed by the keyword's name. */
  type SpawnOptions = map<string, OptionValue>

  /**
   * The tokenizer (`Shellwords.split`) and joiner (`Shellwords.join`), left
   * abstract. `split` gives the tokens, or the message of the ArgumentError
   * it raises.
   */
  datatype Shellwords = Shellwords(split: string -> Result<seq<string>, string>, join: seq<string> -> string)

  /**
   * What a caller may pass as `argv`: an array of words, a shell-style string,
   * or any other Ruby value, represented by the text of its `inspect`.
   */
  datatype ArgvInput = Words(words: seq<string>) | Line(line: string) | Other(shown: string)

  /** The exceptions: `fail`'s RuntimeError, and the tokenizer's ArgumentError. */
  datatype Error = RuntimeError(message: string) | ArgumentError(message: string)

  /**
   * One harness. The harness never reassigns its fields; the arrays and hashes
   * they refer to in Ruby are shared, which this value model does not capture.
   */
  datatype Harness = Harness(
    command: string,
    stdin: string,
    argv: seq<string>,
    env: Env,
    spawnOptions: SpawnOptions,
    spawnInShell: bool)

  /** The keyword arguments of the constructor; `None` is a keyword left out. */
  datatype Attrs = Attrs(
    stdin: Option<string>,
    argv: Option<ArgvInput>,
    env: Option<Env>,
    spawnOptions: Option<SpawnOptions>,
    spawnInShell: Option<bool>)

  /** No keyword arguments at all. */
  const NoAttrs: Attrs := Attrs(None, None, None, None, None)

  /** The keyword under which stdin is handed to the spawner. */
  const StdinDataKey: string := "stdin_data"

  /** The value of a keyword argument, or its default when it was left out. */
  function Given<T>(arg: Option<T>, default: T): T {
    if arg.Some? then arg.value else default
  }

  /** `Hash#merge` on two keyword hashes: each keyword of `changes` wins, the others are kept. */
  function MergeAttrs(base: Attrs, changes: Attrs): (r: Attrs)
    ensures changes.stdin.Some? ==> r.stdin == changes.stdin
    ensures changes.stdin.None? ==> r.stdin == base.stdin
    ensures changes.argv.Some? ==> r.argv == changes.argv
    ensures changes.argv.None? ==> r.argv == base.argv
    ensures changes.env.Some? ==> r.env == changes.env
    ensures changes.env.None? ==> r.env == base.env
    ensures changes.spawnOptions.Some? ==> r.spawnOptions == changes.spawnOptions
    ensures changes.spawnOptions.None? ==> r.spawnOptions == base.spawnOptions
    ensures changes.spawnInShell.Some? ==> r.spawnInShell == changes.spawnInShell
    ensures changes.spawnInShell.None? ==> r.spawnInShell == base.spawnInShell
    ensures changes == NoAttrs ==> r == base
    ensures base == NoAttrs ==> r == changes
  {
    Attrs(
      if changes.stdin.Some? then changes.stdin else base.stdin,
      if changes.argv.Some? then changes.argv else base.argv,
      if changes.env.Some? then changes.env else base.env,
      if changes.spawnOptions.Some? then changes.spawnOptions else base.spawnOptions,
      if changes.spawnInShell.Some? then changes.spawnInShell else base.spawnInShell)
  }

  /** True when normalizing this argv raises. */
  predicate RejectsArgv(argv: ArgvInput, sh: Shellwords) {
    argv.Other? || (argv.Line? && sh.split(argv.line).Err?)
  }

  /** True when an argv keyword is given and normalizing it raises. */
  predicate RejectsGivenArgv(argv: Option<ArgvInput>, sh: Shellwords) {
    argv.Some? && RejectsArgv(argv.value, sh)
  }

  /** The error raised for an argv that is neither an array nor a string. */
  function InvalidArgv(shown: string): (e: Error)
    ensures e.RuntimeError?
    ensures |e.message| >= 14 && e.message[..14] == "Invalid argv: "
    ensures |e.message| >= |shown| && e.message[|e.message| - |shown|..] == shown
  {
    RuntimeError("Invalid argv: " + shown)
  }

  // ---------------------------------------------------------------------
  // Construction
  // ---------------------------------------------------------------------

  /**
   * `normalize_argv`: an array is kept, a string is tokenized (and fails as
   * the tokenizer fails), anything else fails.
   */
  function NormalizeArgv(argv: ArgvInput, sh: Shellwords): (r: Result<seq<string>, Error>)
    ensures r.Err? <==> RejectsArgv(argv, sh)
    ensures argv.Words? ==> r == Ok(argv.words)
    ensures argv.Line? && sh.split(argv.line).Ok? ==> r == Ok(sh.split(argv.line).value)
    ensures argv.Line? && sh.split(argv.line).Err? ==> r == Err(ArgumentError(sh.split(argv.line).error))
    ensures argv.Other? ==> r == Err(InvalidArgv(argv.shown))
  {
    match argv
    case Words(words) => Ok(words)
    case Line(line) =>
      (match sh.split(line)
       case Ok(tokens) => Ok(tokens)
       case Err(message) => Err(ArgumentError(message)))
    case Other(shown) => Err(InvalidArgv(shown))
  }

  /** `CLIHarness.new(command, **attrs)`: the given keywords, defaults for the rest. */
  function New(command: string, attrs: Attrs, sh: Shellwords): (r: Result<Harness, Error>)
    ensures r.Err? <==> RejectsGivenArgv(attrs.argv, sh)
    ensures r.Err? ==> NormalizeArgv(attrs.argv.value, sh) == Err(r.error)
    ensures r.Ok? ==>
      && r.value.command == command
      && r.value.stdin == Given(attrs.stdin, "")
      && r.value.argv == NormalizeArgv(Given(attrs.argv, Words([])), sh).value
      && r.value.env == Given(attrs.env, map[])
      && r.value.spawnOptions == Given(attrs.spawnOptions, map[])
      && r.value.spawnInShell == Given(attrs.spawnInShell, false)
    ensures attrs == NoAttrs ==> r == Ok(Harness(command, "", [], map[], map[], false))
  {
    match NormalizeArgv(Given(attrs.argv, Words([])), sh)
    case Err(e) => Err(e)
    case Ok(argv) =>
      Ok(Harness(
        command,
        Given(attrs.stdin, ""),
        argv,
        Given(attrs.env, map[]),
        Given(attrs.spawnOptions, map[]),
        Given(attrs.spawnInShell, false)))
  }

  /**
   * `CLIHarness.for_commandline(cmdline, **attrs)`: the first token is the
   * command, the remaining tokens replace any argv given in `attrs`; it fails
   * exactly when the tokenizer rejects the command line.
   */
  function ForCommandline(cmdline: string, attrs: Attrs, sh: Shellwords): (r: Result<Harness, Error>)
    ensures r.Err? <==> sh.split(cmdline).Err?
    ensures r.Err? ==> r.error == ArgumentError(sh.split(cmdline).error)
    ensures r.Ok? && sh.split(cmdline).value != [] ==> [r.value.command] + r.value.argv == sh.split(cmdline).value
    ensures r.Ok? && sh.split(cmdline).value == [] ==> r.value.command == "" && r.value.argv == []
    ensures r.Ok? ==>
      && r.value.stdin == Given(attrs.stdin, "")
      && r.value.env == Given(attrs.env, map[])
      && r.value.spawnOptions == Given(attrs.spawnOptions, map[])
      && r.value.spawnInShell == Given(attrs.spawnInShell, false)
  {
    match sh.split(cmdline)
    case Err(message) => Err(ArgumentError(message))
    case Ok(tokens) =>
      var command := if tokens == [] then "" else tokens[0];
      var argv := if tokens == [] then [] else tokens[1..];
      New(command, attrs.(argv := Some(Words(argv))), sh)
  }

  // ---------------------------------------------------------------------
  // Derivations
  // ---------------------------------------------------------------------

  /** The keyword hash that `with` starts from; with the command it rebuilds `h`. */
  function ExistingAttrs(h: Harness): (a: Attrs)
    ensures forall sh: Shellwords :: New(h.command, a, sh) == Ok(h)
  {
    Attrs(Some(h.stdin), Some(Words(h.argv)), Some(h.env), Some(h.spawnOptions), Some(h.spawnInShell))
  }

  /**
   * `with(changes)`: a new harness in which every field named in `changes` is
   * replaced wholesale and every other field, and the command, is copied.
   */
  function With(h: Harness, changes: Attrs, sh: Shellwords): (r: Result<Harness, Error>)
    ensures r.Err? <==> RejectsGivenArgv(changes.argv, sh)
    ensures r.Err? ==> NormalizeArgv(changes.argv.value, sh) == Err(r.error)
    ensures r.Ok? ==>
      && r.value.command == h.command
      && r.value.stdin == Given(changes.stdin, h.stdin)
      && r.value.argv == (if changes.argv.Some? then NormalizeArgv(changes.argv.value, sh).value else h.argv)
      && r.value.env == Given(changes.env, h.env)
      && r.value.spawnOptions == Given(changes.spawnOptions, h.spawnOptions)
      && r.value.spawnInShell == Given(changes.spawnInShell, h.spawnInShell)
  {
    New(h.command, MergeAttrs(ExistingAttrs(h), changes), sh)
  }

  /**
   * `appending_argv(extra)`: the receiver's argv followed by the normalized
   * `extra`; nothing else changes, and an `extra` that does not normalize fails.
   */
  function AppendingArgv(h: Harness, extra: ArgvInput, sh: Shellwords): (r: Result<Harness, Error>)
    ensures r.Err? <==> RejectsArgv(extra, sh)
    ensures r.Err? ==> NormalizeArgv(extra, sh) == Err(r.error)
    ensures r.Ok? ==> r.value == h.(argv := h.argv + NormalizeArgv(extra, sh).value)
  {
    match NormalizeArgv(extra, sh)
    case Err(e) => Err(e)
    case Ok(more) => With(h, NoAttrs.(argv := Some(Words(h.argv + more))), sh)
  }

  /**
   * `merging_env(newEnv)`: the receiver's env overlaid with `newEnv`; the keys
   * of both are kept and `newEnv` wins where they meet; nothing else changes.
   */
  function MergingEnv(h: Harness, newEnv: Env, sh: Shellwords): (r: Harness)
    ensures r.env.Keys == h.env.Keys + newEnv.Keys
    ensures forall k :: k in newEnv ==> r.env[k] == newEnv[k]
    ensures forall k :: k in h.env && k !in newEnv ==> r.env[k] == h.env[k]
    ensures r == h.(env := r.env)
  {
    match With(h, NoAttrs.(env := Some(h.env + newEnv)), sh)
    case Ok(derived) => derived
    case Err(_) => assert false; h
  }

  /** One derivation step a caller can chain onto a harness. */
  datatype Derivation =
    | WithChanges(changes: Attrs)
    | AppendArgv(extra: ArgvInput)
    | MergeEnv(newEnv: Env)

  /** True when the step raises because its argv does not normalize. */
  predicate IsInvalidStep(d: Derivation, sh: Shellwords) {
    || (d.WithChanges? && RejectsGivenArgv(d.changes.argv, sh))
    || (d.AppendArgv? && RejectsArgv(d.extra, sh))
  }

  /** Apply one derivation step. */
  function Derive(h: Harness, d: Derivation, sh: Shellwords): (r: Result<Harness, Error>)
    ensures r.Err? <==> IsInvalidStep(d, sh)
    ensures r.Ok? ==> r.value.command == h.command
  {
    match d
    case WithChanges(changes) => With(h, changes, sh)
    case AppendArgv(extra) => AppendingArgv(h, extra, sh)
    case MergeEnv(newEnv) => Ok(MergingEnv(h, newEnv, sh))
  }

  /**
   * A chain `h.d0.d1...` of derivations: it fails exactly when one of its
   * steps is invalid, and otherwise every step keeps the original command.
   */
  function DeriveAll(h: Harness, ds: seq<Derivation>, sh: Shellwords): (r: Result<Harness, Error>)
    ensures r.Err? <==> exists i :: 0 <= i < |ds| && IsInvalidStep(ds[i], sh)
    ensures r.Ok? ==> r.value.command == h.command
    decreases |ds|
  {
    if ds == [] then Ok(h)
    else
      match Derive(h, ds[0], sh)
      case Err(e) => Err(e)
      case Ok(next) =>
        assert forall i :: 0 < i < |ds| ==> ds[i] == ds[1..][i - 1];
        DeriveAll(next, ds[1..], sh)
  }

  // ---------------------------------------------------------------------
  // What is handed to the spawner
  // ---------------------------------------------------------------------

  /** `commandline`: the joiner applied to the command followed by argv, in order. */
  function Commandline(h: Harness, sh: Shellwords): (line: string)
    ensures line == sh.join([h.command] + h.argv)
  {
    sh.join([h.command] + h.argv)
  }

  /** The positional arguments for the spawner: a shell line, or a program with its argv. */
  datatype SpawnArgs =
    | ShellCommand(line: string)
    | Exec(program: string, argv0: string, args: seq<string>)

  /** `open3_args`: shell mode hands over `commandline + ' ;'`, direct mode `[[cmd, cmd]] + argv`. */
  function Open3Args(h: Harness, sh: Shellwords): (r: SpawnArgs)
    ensures r.ShellCommand? <==> h.spawnInShell
    ensures r.ShellCommand? ==> r.line == Commandline(h, sh) + " ;"
    ensures r.Exec? ==> r.program == h.command && r.argv0 == h.command && r.args == h.argv
  {
    if h.spawnInShell then ShellCommand(Commandline(h, sh) + " ;")
    else Exec(h.command, h.command, h.argv)
  }

  /** `open3_opts`: `stdin_data: stdin` overlaid by every spawn option. */
  function Open3Opts(h: Harness): (r: SpawnOptions)
    ensures r.Keys == {StdinDataKey} + h.spawnOptions.Keys
    ensures forall k :: k in h.spawnOptions ==> r[k] == h.spawnOptions[k]
    ensures StdinDataKey !in h.spawnOptions ==> r[StdinDataKey] == Text(h.stdin)
  {
    map[StdinDataKey := Text(h.stdin)] + h.spawnOptions
  }

  /** Everything `run!` passes to the spawner: env, positional arguments, options. */
  datatype SpawnRequest = SpawnRequest(env: Env, args: SpawnArgs, opts: SpawnOptions)

  /** The call `Open3.capture3(env, *open3_args, **open3_opts)`, as a value. */
  function SpawnRequestOf(h: Harness, sh: Shellwords): (r: SpawnRequest)
    ensures r.env == h.env
    ensures r.args == Open3Args(h, sh)
    ensures r.opts == Open3Opts(h)
  {
    SpawnRequest(h.env, Open3Args(h, sh), Open3Opts(h))
  }

  // ---------------------------------------------------------------------
  // Result of a run
  // ---------------------------------------------------------------------

  /**
   * `CLIHarness::Result`: captured output and the exit status, which is `None`
   * where the platform reports none (a process ended by a signal).
   */
  datatype ProcessResult = ProcessResult(stdout: string, stderr: string, exitStatus: Option<int>)

  /** `has_succeeded?`: the process exited with status 0. */
  function HasSucceeded(res: ProcessResult): (b: bool)
    ensures b <==> res.exitStatus == Some(0)
  {
    res.exitStatus == Some(0)
  }

  /** `has_failed?`: the negation of `has_succeeded?`. */
  function HasFailed(res: ProcessResult): (b: bool)
    ensures b <==> !HasSucceeded(res)
    ensures res.exitStatus.None? ==> b
  {
    !HasSucceeded(res)
  }
}
