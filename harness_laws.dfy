/**
 * Laws relating several harness operations: how derivations compose, which
 * derivations change nothing, how a shell-style argv relates to its tokens,
 * and what the spawner receives in each invocation mode.
 */
module CliHarnessLaws {
  import opened Wrappers
  import opened CliHarness

  /** `with` with no keywords gives back an equal harness. */
  lemma WithNothingIsIdentity(h: Harness, sh: Shellwords)
    ensures With(h, NoAttrs, sh) == Ok(h)
  {
  }

  /** Passing a harness's own fields to `with` gives back an equal harness. */
  lemma WithExistingIsIdentity(h: Harness, sh: Shellwords)
    ensures With(h, ExistingAttrs(h), sh) == Ok(h)
  {
  }

  /**
   * Two successive `with` calls equal one `with` of the merged keywords: a
   * later keyword replaces an earlier one, the others accumulate.
   */
  lemma WithThenWith(h: Harness, a: Attrs, b: Attrs, sh: Shellwords)
    requires With(h, a, sh).Ok?
    ensures With(With(h, a, sh).value, b, sh) == With(h, MergeAttrs(a, b), sh)
  {
  }

  /** `with` of an env replaces the env wholesale: the receiver's env plays no part. */
  lemma WithEnvReplaces(h: Harness, env: Env, sh: Shellwords)
    ensures With(h, NoAttrs.(env := Some(env)), sh) == Ok(h.(env := env))
  {
  }

  /** `with` of an argv replaces the argv wholesale, it does not append. */
  lemma WithArgvReplaces(h: Harness, argv: seq<string>, sh: Shellwords)
    ensures With(h, NoAttrs.(argv := Some(Words(argv))), sh) == Ok(h.(argv := argv))
  {
  }

  /**
   * On construction a shell-style argv behaves exactly as the array of its
   * tokens, and one the tokenizer rejects raises the tokenizer's error.
   */
  lemma NewLineIsNewTokens(command: string, attrs: Attrs, line: string, sh: Shellwords)
    ensures sh.split(line).Ok? ==>
      New(command, attrs.(argv := Some(Line(line))), sh)
      == New(command, attrs.(argv := Some(Words(sh.split(line).value))), sh)
    ensures sh.split(line).Err? ==>
      New(command, attrs.(argv := Some(Line(line))), sh) == Err(ArgumentError(sh.split(line).error))
  {
  }

  /**
   * When appended, a shell-style argv behaves exactly as the array of its
   * tokens, and one the tokenizer rejects raises the tokenizer's error.
   */
  lemma AppendingLineIsAppendingTokens(h: Harness, line: string, sh: Shellwords)
    ensures sh.split(line).Ok? ==>
      AppendingArgv(h, Line(line), sh) == AppendingArgv(h, Words(sh.split(line).value), sh)
    ensures sh.split(line).Err? ==>
      AppendingArgv(h, Line(line), sh) == Err(ArgumentError(sh.split(line).error))
  {
  }

  /** Appending an empty array changes nothing. */
  lemma AppendingNothingIsIdentity(h: Harness, sh: Shellwords)
    ensures AppendingArgv(h, Words([]), sh) == Ok(h)
  {
    assert h.argv + [] == h.argv;
  }

  /** Appending twice equals appending the two normalized argv lists, in order. */
  lemma AppendingTwice(h: Harness, a: ArgvInput, b: ArgvInput, sh: Shellwords)
    requires !RejectsArgv(a, sh) && !RejectsArgv(b, sh)
    ensures AppendingArgv(h, a, sh).Ok?
    ensures AppendingArgv(AppendingArgv(h, a, sh).value, b, sh)
         == AppendingArgv(h, Words(NormalizeArgv(a, sh).value + NormalizeArgv(b, sh).value), sh)
  {
    var x := NormalizeArgv(a, sh).value;
    var y := NormalizeArgv(b, sh).value;
    assert h.argv + x + y == h.argv + (x + y);
  }

  /** Merging an empty env changes nothing. */
  lemma MergingNothingIsIdentity(h: Harness, sh: Shellwords)
    ensures MergingEnv(h, map[], sh) == h
  {
  }

  /** Merging twice equals merging the second env overlaid on the first. */
  lemma MergingTwice(h: Harness, a: Env, b: Env, sh: Shellwords)
    ensures MergingEnv(MergingEnv(h, a, sh), b, sh) == MergingEnv(h, a + b, sh)
  {
  }

  /** Merging an env differs from `with` of that env exactly by keeping the receiver's other keys. */
  lemma MergingIsWithOfOverlay(h: Harness, env: Env, sh: Shellwords)
    ensures With(h, NoAttrs.(env := Some(h.env + env)), sh) == Ok(MergingEnv(h, env, sh))
  {
  }

  /** `for_commandline` and `new` agree when the command line tokenizes to a command and its arguments. */
  lemma ForCommandlineIsNew(cmdline: string, attrs: Attrs, command: string, argv: seq<string>, sh: Shellwords)
    requires sh.split(cmdline) == Ok([command] + argv)
    ensures New(command, attrs.(argv := Some(Words(argv))), sh) == ForCommandline(cmdline, attrs, sh)
  {
  }

  /**
   * In direct mode the spawner receives argv exactly as stored: the request
   * does not depend on the shell-style tokenizer or joiner at all.
   */
  lemma DirectSpawnIgnoresShellwords(h: Harness, sh1: Shellwords, sh2: Shellwords)
    requires !h.spawnInShell
    ensures SpawnRequestOf(h, sh1) == SpawnRequestOf(h, sh2)
    ensures SpawnRequestOf(h, sh1).args == Exec(h.command, h.command, h.argv)
  {
  }

  /** In shell mode the request depends on command and argv only through the joined command line. */
  lemma ShellSpawnSeesOnlyCommandline(h1: Harness, h2: Harness, sh: Shellwords)
    requires h1.spawnInShell && h2.spawnInShell
    requires Commandline(h1, sh) == Commandline(h2, sh)
    ensures Open3Args(h1, sh) == Open3Args(h2, sh)
  {
  }

  /** The spawn request of a merged harness passes the overlaid env. */
  lemma MergedEnvReachesSpawner(h: Harness, env: Env, sh: Shellwords)
    ensures SpawnRequestOf(MergingEnv(h, env, sh), sh).env == h.env + env
  {
  }

  /**
   * The spawn mode a chain of derivations should end with, read from its end:
   * the flag of the last `with` step that names one, else the starting flag.
   */
  function LastShellFlag(start: bool, ds: seq<Derivation>): bool
    decreases |ds|
  {
    if ds == [] then start
    else
      var d := ds[|ds| - 1];
      if d.WithChanges? && d.changes.spawnInShell.Some? then d.changes.spawnInShell.value
      else LastShellFlag(start, ds[..|ds| - 1])
  }

  /** A chain of derivations leaves the spawn mode that its last `with` step set. */
  lemma {:induction false} DeriveAllShellFlag(h: Harness, ds: seq<Derivation>, sh: Shellwords)
    requires DeriveAll(h, ds, sh).Ok?
    ensures DeriveAll(h, ds, sh).value.spawnInShell == LastShellFlag(h.spawnInShell, ds)
    decreases |ds|
  {
    if ds != [] {
      var next := Derive(h, ds[0], sh).value;
      DeriveAllShellFlag(next, ds[1..], sh);
      LastShellFlagCons(h.spawnInShell, ds[0], ds[1..]);
      assert [ds[0]] + ds[1..] == ds;
    }
  }

  /** Peeling the first step off a chain: the flag it sets becomes the new start. */
  lemma {:induction false} LastShellFlagCons(start: bool, d: Derivation, rest: seq<Derivation>)
    ensures LastShellFlag(start, [d] + rest)
         == LastShellFlag(if d.WithChanges? && d.changes.spawnInShell.Some? then d.changes.spawnInShell.value else start, rest)
    decreases |rest|
  {
    if rest != [] {
      assert ([d] + rest)[..|[d] + rest| - 1] == [d] + rest[..|rest| - 1];
      LastShellFlagCons(start, d, rest[..|rest| - 1]);
    }
  }
}
