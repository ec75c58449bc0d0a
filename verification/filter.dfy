/**
  The decision logic of the output filter (`bear_output_filter_t` and
  `bear_filter_source_file` in src/filter.c): given one observed process
  invocation, decide whether it is a compiler call and, if so, which argument
  is the source file, resolved against the working directory.
 */
module Filter {
  import opened Wrappers
  import opened RegexList
  import opened Paths

  /** The three pattern lists read from the `filter` configuration group. */
  datatype Filter = Filter(compilers: RegexList, sourceFiles: RegexList, cancelParameters: RegexList)

  /** One observed invocation: its argument vector (the program name first)
      and its working directory. A missing and an empty C argument vector are
      both the empty sequence. */
  datatype Message = Message(cmd: seq<string>, cwd: string)

  /** Argument `i` is the first one at or after `k` matching a source-file pattern. */
  ghost predicate FirstSourceFrom(f: Filter, m: Matcher, cmd: seq<string>, k: nat, i: int)
  {
    && k <= i < |cmd|
    && Match(m, f.sourceFiles, cmd[i])
    && forall j :: k <= j < i ==> !Match(m, f.sourceFiles, cmd[j])
  }

  /** No argument at or after `k` matches a cancel pattern. */
  ghost predicate NoCancelFrom(f: Filter, m: Matcher, cmd: seq<string>, k: nat)
  {
    forall j :: k <= j < |cmd| ==> !Match(m, f.cancelParameters, cmd[j])
  }

  /** No argument at or after `k`, other than argument `i`, matches a cancel pattern. */
  ghost predicate NoCancelExcept(f: Filter, m: Matcher, cmd: seq<string>, k: nat, i: int)
  {
    forall j :: k <= j < |cmd| && j != i ==> !Match(m, f.cancelParameters, cmd[j])
  }

  /** The closed-form acceptance condition: the program name is a compiler,
      argument `i` is the first source-file argument, and no argument other
      than `i` matches a cancel pattern. */
  ghost predicate Accepted(f: Filter, m: Matcher, e: Message, i: int)
  {
    && |e.cmd| > 0
    && Match(m, f.compilers, e.cmd[0])
    && FirstSourceFrom(f, m, e.cmd, 0, i)
    && NoCancelExcept(f, m, e.cmd, 0, i)
  }

  /** The scan loop of `bear_filter_source_file` from argument `k` on, with
      `result` the candidate slot. While the slot is empty, the first argument
      matching a source-file pattern is claimed (and is not tested against the
      cancel patterns); every argument not being claimed is tested against the
      cancel patterns, and a match empties the slot and stops the scan. */
  function Scan(f: Filter, m: Matcher, e: Message, k: nat, result: Option<string>): (r: Option<string>)
    requires k <= |e.cmd|
    ensures result.Some? ==> r == (if NoCancelFrom(f, m, e.cmd, k) then result else None)
    ensures result.None? ==>
              (r.Some? <==> exists i :: FirstSourceFrom(f, m, e.cmd, k, i) && NoCancelExcept(f, m, e.cmd, k, i))
    ensures result.None? ==>
              forall i :: FirstSourceFrom(f, m, e.cmd, k, i) && NoCancelExcept(f, m, e.cmd, k, i) ==>
                r == Some(FixPath(e.cmd[i], e.cwd))
    decreases |e.cmd| - k
  {
    if k == |e.cmd| then
      result
    else if result.None? && Match(m, f.sourceFiles, e.cmd[k]) then
      var r := Scan(f, m, e, k + 1, Some(FixPath(e.cmd[k], e.cwd)));
      assert FirstSourceFrom(f, m, e.cmd, k, k);
      assert forall i :: FirstSourceFrom(f, m, e.cmd, k, i) ==> i == k;
      assert NoCancelExcept(f, m, e.cmd, k, k) <==> NoCancelFrom(f, m, e.cmd, k + 1);
      r
    else if Match(m, f.cancelParameters, e.cmd[k]) then
      None
    else
      var r := Scan(f, m, e, k + 1, result);
      assert result.None? ==> forall i :: FirstSourceFrom(f, m, e.cmd, k, i) <==> FirstSourceFrom(f, m, e.cmd, k + 1, i);
      assert forall i :: NoCancelExcept(f, m, e.cmd, k, i) <==> NoCancelExcept(f, m, e.cmd, k + 1, i);
      assert result.None? && r.Some? ==> exists i :: FirstSourceFrom(f, m, e.cmd, k, i) && NoCancelExcept(f, m, e.cmd, k, i) by {
        if result.None? && r.Some? {
          var i :| FirstSourceFrom(f, m, e.cmd, k + 1, i) && NoCancelExcept(f, m, e.cmd, k + 1, i);
          assert FirstSourceFrom(f, m, e.cmd, k, i) && NoCancelExcept(f, m, e.cmd, k, i);
        }
      }
      r
  }

  /** `bear_filter_source_file`: the resolved source file of a compiler call,
      or nothing. A result is produced exactly when some argument is Accepted,
      and it is then that argument passed through `fix_path`. */
  function SourceFile(f: Filter, m: Matcher, e: Message): (r: Option<string>)
    ensures r.Some? <==> exists i :: Accepted(f, m, e, i)
    ensures forall i :: Accepted(f, m, e, i) ==> r == Some(FixPath(e.cmd[i], e.cwd))
  {
    if |e.cmd| > 0 && Match(m, f.compilers, e.cmd[0]) then
      var r := Scan(f, m, e, 0, None);
      assert r.Some? ==> exists i :: Accepted(f, m, e, i) by {
        if r.Some? {
          var i :| FirstSourceFrom(f, m, e.cmd, 0, i) && NoCancelExcept(f, m, e.cmd, 0, i);
          assert Accepted(f, m, e, i);
        }
      }
      r
    else
      None
  }

  /** An invocation with no arguments, or whose program name matches no
      compiler pattern, yields nothing whatever the other two lists hold. */
  lemma NotACompilerCall(f: Filter, m: Matcher, e: Message, sourceFiles: RegexList, cancelParameters: RegexList)
    requires |e.cmd| == 0 || !Match(m, f.compilers, e.cmd[0])
    ensures SourceFile(f, m, e) == None
    ensures SourceFile(Filter(f.compilers, sourceFiles, cancelParameters), m, e) == None
  {
  }

  /** The scan starts at the program name, so the program name itself can be
      claimed as the source file. */
  lemma ProgramNameMayBeSource(f: Filter, m: Matcher, e: Message)
    requires |e.cmd| > 0
    requires Match(m, f.compilers, e.cmd[0])
    requires Match(m, f.sourceFiles, e.cmd[0])
    requires forall j :: 1 <= j < |e.cmd| ==> !Match(m, f.cancelParameters, e.cmd[j])
    ensures SourceFile(f, m, e) == Some(FixPath(e.cmd[0], e.cwd))
  {
    assert Accepted(f, m, e, 0);
  }

  /** A result is always the first source-file argument resolved by `fix_path`;
      later source-file arguments never replace it. */
  lemma ResultIsFirstSource(f: Filter, m: Matcher, e: Message)
    requires SourceFile(f, m, e).Some?
    ensures exists i :: && FirstSourceFrom(f, m, e.cmd, 0, i)
                        && SourceFile(f, m, e).value == FixPath(e.cmd[i], e.cwd)
  {
    var i :| Accepted(f, m, e, i);
  }

  /** The argument claimed as the candidate is not tested against the cancel
      patterns: matching one of them as well does not void the result. */
  lemma CandidateNotCancelTested(f: Filter, m: Matcher, e: Message, i: nat)
    requires |e.cmd| > 0 && Match(m, f.compilers, e.cmd[0])
    requires FirstSourceFrom(f, m, e.cmd, 0, i)
    requires Match(m, f.cancelParameters, e.cmd[i])
    requires NoCancelExcept(f, m, e.cmd, 0, i)
    ensures SourceFile(f, m, e) == Some(FixPath(e.cmd[i], e.cwd))
  {
    assert Accepted(f, m, e, i);
  }

  /** Any argument matching a cancel pattern, other than the one claimed as
      the candidate, voids the result, whether it comes before the candidate,
      after it, or there is no candidate at all. */
  lemma CancelVoids(f: Filter, m: Matcher, e: Message, j: nat)
    requires j < |e.cmd|
    requires Match(m, f.cancelParameters, e.cmd[j])
    requires !FirstSourceFrom(f, m, e.cmd, 0, j)
    ensures SourceFile(f, m, e) == None
  {
    forall i ensures !Accepted(f, m, e, i) {
      if i != j {
        assert !NoCancelExcept(f, m, e.cmd, 0, i);
      }
    }
  }

  /** Reordering the patterns inside any of the three lists does not change
      the classification of any invocation. */
  lemma PatternOrderIrrelevant(f: Filter, g: Filter, m: Matcher, e: Message)
    requires multiset(f.compilers.regexs) == multiset(g.compilers.regexs)
    requires multiset(f.sourceFiles.regexs) == multiset(g.sourceFiles.regexs)
    requires multiset(f.cancelParameters.regexs) == multiset(g.cancelParameters.regexs)
    ensures SourceFile(f, m, e) == SourceFile(g, m, e)
  {
    forall s: string
      ensures Match(m, f.compilers, s) == Match(m, g.compilers, s)
      ensures Match(m, f.sourceFiles, s) == Match(m, g.sourceFiles, s)
      ensures Match(m, f.cancelParameters, s) == Match(m, g.cancelParameters, s)
    {
      MatchOrderIrrelevant(m, f.compilers, g.compilers, s);
      MatchOrderIrrelevant(m, f.sourceFiles, g.sourceFiles, s);
      MatchOrderIrrelevant(m, f.cancelParameters, g.cancelParameters, s);
    }
    assert forall i :: Accepted(f, m, e, i) <==> Accepted(g, m, e, i);
    if SourceFile(f, m, e).Some? {
      var i :| Accepted(f, m, e, i);
    }
  }
}
