/**
 * The construction and derivation scenarios of the harness's own test
 * suite, stated over the model. Where a scenario tokenizes a string, the
 * tokens it expects are a precondition on the tokenizer.
 */
module CliHarnessExamples {
  import opened Wrappers
  import opened CliHarness

  /** A harness built from a command alone has every default. */
  lemma DefaultsOfNew(sh: Shellwords)
    ensures New("whatever", NoAttrs, sh).Ok?
    ensures var h := New("whatever", NoAttrs, sh).value;
      && h.argv == [] && h.stdin == "" && h.env == map[] && h.spawnOptions == map[] && !h.spawnInShell
  {
  }

  /** Shell-style strings as argv: construction, replacement by `with`, and appending. */
  lemma ShellStyleArgv(sh: Shellwords)
    requires sh.split("--a b") == Ok(["--a", "b"])
    requires sh.split("c d") == Ok(["c", "d"])
    requires sh.split("e f") == Ok(["e", "f"])
    ensures New("whatever", NoAttrs.(argv := Some(Line("--a b"))), sh).Ok?
    ensures var h1 := New("whatever", NoAttrs.(argv := Some(Line("--a b"))), sh).value;
      && h1.argv == ["--a", "b"]
      && With(h1, NoAttrs.(argv := Some(Line("c d"))), sh).Ok?
      && With(h1, NoAttrs.(argv := Some(Line("c d"))), sh).value.argv == ["c", "d"]
      && AppendingArgv(h1, Line("e f"), sh).Ok?
      && AppendingArgv(h1, Line("e f"), sh).value.argv == ["--a", "b", "e", "f"]
  {
  }

  /** Arrays as argv: construction, replacement by `with`, and appending. */
  lemma ArrayArgv(sh: Shellwords)
    ensures New("whatever", NoAttrs.(argv := Some(Words(["--a", "b"]))), sh).Ok?
    ensures var h1 := New("whatever", NoAttrs.(argv := Some(Words(["--a", "b"]))), sh).value;
      && h1.argv == ["--a", "b"]
      && With(h1, NoAttrs.(argv := Some(Words(["c", "d"]))), sh).Ok?
      && With(h1, NoAttrs.(argv := Some(Words(["c", "d"]))), sh).value.argv == ["c", "d"]
      && AppendingArgv(h1, Words(["e", "f"]), sh).Ok?
      && AppendingArgv(h1, Words(["e", "f"]), sh).value.argv == ["--a", "b", "e", "f"]
  {
  }

  /** An env given to the constructor is replaced, not merged, by `with`. */
  lemma EnvReplacedByWith(sh: Shellwords)
    ensures New("whatever", NoAttrs.(env := Some(map["a" := "1"])), sh).Ok?
    ensures var h1 := New("whatever", NoAttrs.(env := Some(map["a" := "1"])), sh).value;
      && h1.env == map["a" := "1"]
      && With(h1, NoAttrs.(env := Some(map["b" := "2"])), sh).Ok?
      && With(h1, NoAttrs.(env := Some(map["b" := "2"])), sh).value.env == map["b" := "2"]
  {
  }

  /** `merging_env` keeps the receiver's keys and lets the new values win. */
  lemma EnvMerged(sh: Shellwords)
    ensures New("whatever", NoAttrs.(env := Some(map["a" := "1", "b" := "2"])), sh).Ok?
    ensures var h1 := New("whatever", NoAttrs.(env := Some(map["a" := "1", "b" := "2"])), sh).value;
      MergingEnv(h1, map["b" := "33", "c" := "44"], sh).env == map["a" := "1", "b" := "33", "c" := "44"]
  {
  }

  /** Spawn options given to the constructor are replaced by `with`. */
  lemma SpawnOptionsReplacedByWith(sh: Shellwords)
    ensures New("whatever", NoAttrs.(spawnOptions := Some(map["hello" := Number(3)])), sh).Ok?
    ensures var h1 := New("whatever", NoAttrs.(spawnOptions := Some(map["hello" := Number(3)])), sh).value;
      && With(h1, NoAttrs.(spawnOptions := Some(map["bye" := Number(5)])), sh).Ok?
      && With(h1, NoAttrs.(spawnOptions := Some(map["bye" := Number(5)])), sh).value.spawnOptions
         == map["bye" := Number(5)]
  {
  }

  /** The shell flag given to the constructor can be flipped by `with`. */
  lemma ShellFlagChangedByWith(sh: Shellwords)
    ensures New("whatever", NoAttrs.(spawnInShell := Some(false)), sh).Ok?
    ensures var h1 := New("whatever", NoAttrs.(spawnInShell := Some(false)), sh).value;
      && !h1.spawnInShell
      && With(h1, NoAttrs.(spawnInShell := Some(true)), sh).Ok?
      && With(h1, NoAttrs.(spawnInShell := Some(true)), sh).value.spawnInShell
  {
  }

  /** The same harness in the two modes hands the spawner different arguments. */
  lemma ModesSpawnDifferently(sh: Shellwords)
    requires sh.split("env") == Ok(["env"])
    ensures ForCommandline("env", NoAttrs, sh).Ok?
    ensures var h := ForCommandline("env", NoAttrs, sh).value;
      && With(h, NoAttrs.(spawnInShell := Some(true)), sh).Ok?
      && With(h, NoAttrs.(spawnInShell := Some(false)), sh).Ok?
      && Open3Args(With(h, NoAttrs.(spawnInShell := Some(true)), sh).value, sh).ShellCommand?
      && Open3Args(With(h, NoAttrs.(spawnInShell := Some(false)), sh).value, sh)
         == Exec("env", "env", [])
  {
  }

  /**
   * A string argv with an unmatched quote, which the tokenizer rejects, makes
   * construction, `with` and appending raise that ArgumentError.
   */
  lemma UnmatchedQuoteRaises(h: Harness, sh: Shellwords)
    requires sh.split("a 'b").Err?
    ensures New("whatever", NoAttrs.(argv := Some(Line("a 'b"))), sh) == Err(ArgumentError(sh.split("a 'b").error))
    ensures With(h, NoAttrs.(argv := Some(Line("a 'b"))), sh) == Err(ArgumentError(sh.split("a 'b").error))
    ensures AppendingArgv(h, Line("a 'b"), sh) == Err(ArgumentError(sh.split("a 'b").error))
    ensures ForCommandline("echo 'x", NoAttrs, sh).Err? <==> sh.split("echo 'x").Err?
  {
  }

  /** A finished process with status 0 has succeeded; one with status 1 has failed. */
  lemma ResultPredicates()
    ensures HasSucceeded(ProcessResult("meow", "", Some(0)))
    ensures !HasFailed(ProcessResult("meow", "", Some(0)))
    ensures HasFailed(ProcessResult("", "cat: missing", Some(1)))
    ensures !HasSucceeded(ProcessResult("", "cat: missing", Some(1)))
  {
  }
}
