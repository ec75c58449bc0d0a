/**
  Worked classifications with a filter that recognises `gcc`, C source files
  and the preprocess-only flag `-E`. The regular-expression library is still
  abstract: each scenario only assumes what POSIX extended regular expressions
  say about the three anchored patterns involved.
 */
module Scenarios {
  import opened Wrappers
  import opened RegexList
  import opened Paths
  import opened Filter

  const GccFilter := Filter(RegexList(["^gcc$"]), RegexList(["\\.c$"]), RegexList(["^-E$"]))

  /** What the library's matcher does with the three patterns of GccFilter. */
  ghost predicate GccSemantics(m: Matcher)
  {
    && (forall s :: m("^gcc$", s) <==> s == "gcc")
    && (forall s :: m("\\.c$", s) <==> |s| >= 2 && s[|s| - 2] == '.' && s[|s| - 1] == 'c')
    && (forall s :: m("^-E$", s) <==> s == "-E")
  }

  /** The verdicts of the three pattern lists on the arguments used below. */
  lemma GccVerdicts(m: Matcher)
    requires GccSemantics(m)
    ensures Match(m, GccFilter.compilers, "gcc") && !Match(m, GccFilter.compilers, "clang")
    ensures Match(m, GccFilter.sourceFiles, "foo.c") && Match(m, GccFilter.sourceFiles, "/a/b.c")
    ensures !Match(m, GccFilter.sourceFiles, "gcc") && !Match(m, GccFilter.sourceFiles, "-c")
    ensures !Match(m, GccFilter.sourceFiles, "-E")
    ensures Match(m, GccFilter.cancelParameters, "-E")
    ensures !Match(m, GccFilter.cancelParameters, "gcc") && !Match(m, GccFilter.cancelParameters, "-c")
  {
    assert GccFilter.compilers.regexs == ["^gcc$"];
    assert GccFilter.sourceFiles.regexs == ["\\.c$"];
    assert GccFilter.cancelParameters.regexs == ["^-E$"];
  }

  /** `gcc -c foo.c` in `/home/u` compiles `/home/u/foo.c`. */
  lemma CompileOneFile(m: Matcher)
    requires GccSemantics(m)
    ensures SourceFile(GccFilter, m, Message(["gcc", "-c", "foo.c"], "/home/u")) == Some("/home/u/foo.c")
  {
    GccVerdicts(m);
    var e := Message(["gcc", "-c", "foo.c"], "/home/u");
    assert e.cmd[0] == "gcc" && e.cmd[1] == "-c" && e.cmd[2] == "foo.c";
    assert FirstSourceFrom(GccFilter, m, e.cmd, 0, 2);
    assert NoCancelExcept(GccFilter, m, e.cmd, 0, 2);
    assert Accepted(GccFilter, m, e, 2);
    assert FixPath("foo.c", "/home/u") == "/home/u/foo.c";
  }

  /** `gcc foo.c -E` is cancelled by the flag that follows the candidate. */
  lemma CancelAfterCandidate(m: Matcher)
    requires GccSemantics(m)
    ensures SourceFile(GccFilter, m, Message(["gcc", "foo.c", "-E"], "/home/u")) == None
  {
    GccVerdicts(m);
    var e := Message(["gcc", "foo.c", "-E"], "/home/u");
    assert e.cmd[2] == "-E";
    CancelVoids(GccFilter, m, e, 2);
  }

  /** `clang foo.c` is not a call of a configured compiler. */
  lemma CompilerMismatch(m: Matcher)
    requires GccSemantics(m)
    ensures SourceFile(GccFilter, m, Message(["clang", "foo.c"], "/home/u")) == None
  {
    GccVerdicts(m);
  }

  /** An absolute source argument is reported as written. */
  lemma AbsoluteSourceKept(m: Matcher)
    requires GccSemantics(m)
    ensures SourceFile(GccFilter, m, Message(["gcc", "/a/b.c"], "/x/y")) == Some("/a/b.c")
  {
    GccVerdicts(m);
    var e := Message(["gcc", "/a/b.c"], "/x/y");
    assert e.cmd[0] == "gcc" && e.cmd[1] == "/a/b.c";
    assert FirstSourceFrom(GccFilter, m, e.cmd, 0, 1);
    assert NoCancelExcept(GccFilter, m, e.cmd, 0, 1);
    assert Accepted(GccFilter, m, e, 1);
  }
}
