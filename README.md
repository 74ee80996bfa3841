# cli_harness in Dafny

A model of `CLIHarness`, a Ruby test helper that describes one invocation of
an external command as an immutable value: the command, its argv, the text fed
to its stdin, extra environment variables, options for the process spawner and
a flag choosing shell or direct invocation. Derivations (`with`,
`appending_argv`, `merging_env`) build new harnesses and never change the
receiver. `run!` hands the description to `Open3.capture3` and wraps what
comes back in a `Result` whose `has_succeeded?` / `has_failed?` read the exit
status.

The model is pure: a `Harness` datatype, an `Attrs` datatype for the
constructor's keyword arguments (`None` = keyword not given), functions for
each operation, and lemmas for the laws that relate them.

- `wrappers.dfy` — `Option` and `Result` (`Err` stands for a raised exception).
- `cli_harness.dfy` — module `CliHarness`: the data model, construction, argv
  normalisation, the derivations, chains of derivations, the request handed to
  the spawner, and the process result.
- `harness_laws.dfy` — module `CliHarnessLaws`: laws connecting the operations.
- `harness_examples.dfy` — module `CliHarnessExamples`: the construction and
  derivation scenarios of `spec/cli_harness_spec.rb`, over the model.

Ruby's `Shellwords.split` and `Shellwords.join` are standard-library code and
are not modelled. Each operation that uses them takes a `Shellwords` value
holding two arbitrary functions. `split` returns either the tokens or the
message of the ArgumentError it raises (Ruby raises one on an unmatched
quote); the model leaves open which strings it rejects and how it splits the
others. Where a test scenario relies on a particular tokenization, that
tokenization is a precondition of the lemma.

spec/cli_harness_spec.rb:3, 71 and 91 call `CLIHarness.for_command`, which
lib/cli_harness.rb does not define; it defines `self.for`, a plain alias of
`new`.

## Model

| member | source | states |
|---|---|---|
| CliHarness.MergeAttrs | lib/cli_harness.rb:37 | keyword-hash `merge`: each keyword given in the changes wins, each keyword it leaves out keeps the base value; merging nothing, or into nothing, gives the other hash |
| CliHarness.InvalidArgv | lib/cli_harness.rb:71 | the error for a bad argv is a RuntimeError whose message starts `Invalid argv: ` and ends with the offending value's inspect text |
| CliHarness.NormalizeArgv | lib/cli_harness.rb:67-73 | an array input comes back unchanged; a string input becomes its tokenization, or raises the tokenizer's ArgumentError when the tokenizer rejects it; any other value raises `Invalid argv: <inspect>`; it fails exactly in those two cases |
| CliHarness.New | lib/cli_harness.rb:16-23 | construction fails exactly when a given argv fails to normalise, with normalisation's error; otherwise each field is the given keyword or its default (`''`, `[]`, `{}`, `{}`, `false`), the argv normalised; with no keywords the harness is exactly the all-defaults one |
| CliHarness.ForCommandline | lib/cli_harness.rb:11-14 | fails exactly when the tokenizer rejects the command line, with its ArgumentError; otherwise the command followed by argv is exactly the token list, and stdin, env, spawn options and shell flag come from the passed keywords, whose argv is overridden |
| CliHarness.ExistingAttrs | lib/cli_harness.rb:30-36 | the keyword hash holds every field but the command, and `new` of the command with it rebuilds the receiver for any tokenizer |
| CliHarness.With | lib/cli_harness.rb:29-38 | fails exactly when a given new argv fails to normalise (neither array nor string, or a string the tokenizer rejects), with normalisation's error; otherwise every named field is replaced wholesale by its new value, and the command and every unnamed field are copied from the receiver |
| CliHarness.AppendingArgv | lib/cli_harness.rb:40-42 | fails exactly when the extra argv fails to normalise, with normalisation's error; otherwise the result equals the receiver with argv set to the receiver's argv followed by the normalised extra |
| CliHarness.MergingEnv | lib/cli_harness.rb:44-46 | the new env's keys are the union of both key sets; a key in the new map takes the new value, any other key keeps the receiver's; every other field is unchanged |
| CliHarness.Derive | lib/cli_harness.rb:29-46 | one `with` / `appending_argv` / `merging_env` step fails exactly when it carries an argv that fails to normalise (including a string the tokenizer rejects), and keeps the command |
| CliHarness.DeriveAll | lib/cli_harness.rb:29-46 | a chain of derivation steps fails exactly when some step carries an argv that fails to normalise (including a string the tokenizer rejects); a successful chain keeps the original command |
| CliHarness.Commandline | lib/cli_harness.rb:61-63 | the joiner receives the command followed by argv, in order; the tokenizer plays no part |
| CliHarness.Open3Args | lib/cli_harness.rb:75-84 | shell mode is chosen exactly when the flag is set, and hands over the joined command line followed by ` ;`; direct mode hands over the pair (command, command) and then argv exactly as stored |
| CliHarness.Open3Opts | lib/cli_harness.rb:86-90 | the options hold `stdin_data` plus every spawn-option key; every spawn option is passed with its own value, so it wins a clash; when it does not clash `stdin_data` is the harness's stdin |
| CliHarness.SpawnRequestOf | lib/cli_harness.rb:48-49 | `run!` passes the harness's env unchanged, the positional arguments of `open3_args` and the options of `open3_opts` |
| CliHarness.HasSucceeded | lib/cli_harness.rb:101-107 | a run succeeded exactly when its exit status is 0; a run with no exit status did not succeed |
| CliHarness.HasFailed | lib/cli_harness.rb:109-111 | failure is exactly the negation of success, so a run without an exit status has failed |
| CliHarnessLaws.WithNothingIsIdentity | lib/cli_harness.rb:29-38 | `with` of no keywords gives a harness equal to the receiver |
| CliHarnessLaws.WithExistingIsIdentity | lib/cli_harness.rb:29-38 | `with` of the receiver's own fields gives a harness equal to it: an existing argv is not re-tokenized |
| CliHarnessLaws.WithThenWith | lib/cli_harness.rb:29-38 | two successive `with` calls equal one `with` of the merged keywords (the later keyword wins) |
| CliHarnessLaws.WithEnvReplaces | lib/cli_harness.rb:29-38 | `with(env: m)` gives exactly the receiver with env `m`; the old env is not merged in |
| CliHarnessLaws.WithArgvReplaces | lib/cli_harness.rb:29-38 | `with(argv: array)` gives exactly the receiver with that argv; it does not append |
| CliHarnessLaws.NewLineIsNewTokens | lib/cli_harness.rb:67-73 | constructing with a shell-style argv string equals constructing with the array of its tokens; a string the tokenizer rejects raises its ArgumentError |
| CliHarnessLaws.AppendingLineIsAppendingTokens | lib/cli_harness.rb:40-42 | appending a shell-style string equals appending the array of its tokens; a string the tokenizer rejects raises its ArgumentError |
| CliHarnessLaws.AppendingNothingIsIdentity | lib/cli_harness.rb:40-42 | appending an empty array gives a harness equal to the receiver |
| CliHarnessLaws.AppendingTwice | lib/cli_harness.rb:40-42 | appending two valid argv inputs one after the other equals appending their normalised lists concatenated in order |
| CliHarnessLaws.MergingNothingIsIdentity | lib/cli_harness.rb:44-46 | merging an empty env gives a harness equal to the receiver |
| CliHarnessLaws.MergingTwice | lib/cli_harness.rb:44-46 | merging `a` then `b` equals merging `b` overlaid on `a` |
| CliHarnessLaws.MergingIsWithOfOverlay | lib/cli_harness.rb:44-46 | `merging_env(m)` equals `with(env: env.merge(m))` |
| CliHarnessLaws.ForCommandlineIsNew | lib/cli_harness.rb:11-14 | when a command line tokenizes to a command and its arguments, `for_commandline` equals `new` of that command with those arguments as argv |
| CliHarnessLaws.DirectSpawnIgnoresShellwords | lib/cli_harness.rb:75-90 | in direct mode the whole spawn request is independent of the tokenizer and joiner, and its argument vector is (command, command) then argv as stored |
| CliHarnessLaws.ShellSpawnSeesOnlyCommandline | lib/cli_harness.rb:75-78 | in shell mode, two harnesses with the same joined command line hand the spawner the same positional arguments |
| CliHarnessLaws.MergedEnvReachesSpawner | lib/cli_harness.rb:44-49 | after `merging_env(m)` the spawner receives the receiver's env overlaid with `m` |
| CliHarnessLaws.DeriveAllShellFlag | lib/cli_harness.rb:25-38 | after a successful chain of derivations the shell flag is the one set by the last `with` naming it, or the original flag if none does; proved against a definition that reads the chain from its end |
| CliHarnessLaws.LastShellFlagCons | lib/cli_harness.rb:29-38 | reading the chain from its end agrees with applying its first step's flag and then reading the rest |
| CliHarnessExamples.DefaultsOfNew | spec/cli_harness_spec.rb:26-29 | a harness built from a command alone has empty argv, stdin, env and spawn options and is not in shell mode |
| CliHarnessExamples.ShellStyleArgv | spec/cli_harness_spec.rb:31-39 | with the tokenizations the test expects: argv `'--a b'` gives `['--a','b']`, `with(argv: 'c d')` gives `['c','d']`, appending `'e f'` gives `['--a','b','e','f']` |
| CliHarnessExamples.ArrayArgv | spec/cli_harness_spec.rb:41-49 | the same three results with array inputs |
| CliHarnessExamples.EnvReplacedByWith | spec/cli_harness_spec.rb:57-62 | env `{a}` replaced by `with(env: {b})` becomes exactly `{b}` |
| CliHarnessExamples.EnvMerged | spec/cli_harness_spec.rb:64-68 | `{a: 1, b: 2}` merged with `{b: 33, c: 44}` is `{a: 1, b: 33, c: 44}` |
| CliHarnessExamples.SpawnOptionsReplacedByWith | spec/cli_harness_spec.rb:84-88 | spawn options `{hello: 3}` replaced by `with(spawn_options: {bye: 5})` become exactly `{bye: 5}` |
| CliHarnessExamples.ShellFlagChangedByWith | spec/cli_harness_spec.rb:101-106 | the constructor's `spawn_in_shell: false` is kept, and `with(spawn_in_shell: true)` sets it |
| CliHarnessExamples.ModesSpawnDifferently | spec/cli_harness_spec.rb:108-115 | the harness for `env` hands the spawner a shell line in shell mode and the direct vector `[env, env]` otherwise |
| CliHarnessExamples.UnmatchedQuoteRaises | lib/cli_harness.rb:11-14 | when the tokenizer rejects `a 'b`, `new`, `with` and `appending_argv` with that argv string raise its ArgumentError, and `for_commandline` raises exactly when the tokenizer rejects its command line |
| CliHarnessExamples.ResultPredicates | spec/cli_harness_spec.rb:5-23 | a status-0 result has succeeded and not failed; a status-1 result has failed and not succeeded |

## Left out

- `run!` (lib/cli_harness.rb:48-55): spawning the process, blocking on it and capturing its pipes is I/O through `Open3.capture3`. The model stops at the request that would be handed over (`SpawnRequestOf`). The end-to-end scenarios that run `cat`, `env` and `pwd` therefore have no counterpart, except that `ModesSpawnDifferently` shows the two modes produce different requests.
- How the platform treats the env (inherit the ambient environment, then override) is the spawner's behaviour and is not modelled.
- `Shellwords.split` and `Shellwords.join`: their internals are standard-library code. They are parameters of the model, so no quoting round trip of `commandline` is claimed.
- `Process::Status#exitstatus` (lib/cli_harness.rb:101-103): the status object is a platform value. The model stores the exit status directly as an optional integer. `None` stands for Ruby's `nil`, which a signal-terminated process reports.
- `inspect` (lib/cli_harness.rb:57-59): cosmetic string formatting.
- `self.for` (lib/cli_harness.rb:7-9): a plain alias for `new`.
- Value types: Ruby lets env and options hold any value, with symbol or string keys. The model keys both by strings. It holds env values as strings and option values as text, integer or boolean. Argv elements are strings.
- Unknown keywords: Ruby raises `ArgumentError` for a keyword that `initialize` does not take. The `Attrs` datatype cannot express one, so that error path does not exist in the model.
- Keyword passing in `with` and `for_commandline`: both pass a hash positionally to `new` (lib/cli_harness.rb:37 and 13), and Ruby 2 converts it to keyword arguments. The model assumes that conversion. Ruby 3 would not perform it and would raise.
- Sharing: `new` stores the caller's argv array and env and spawn-option hashes as given (lib/cli_harness.rb:19-21, for an array argv), and `with` hands the same objects to every derived harness (lib/cli_harness.rb:32-34). An in-place change to one of them is seen by the caller, the receiver and every derivation that kept that field. The value model does not capture this aliasing; its harnesses share nothing that can change.
- CliHarness.ForCommandline: when the command line tokenizes to nothing, Ruby binds the command to `nil`. The model types the command as a string and uses the empty string there.
