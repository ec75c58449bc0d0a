/**
  The ordered pattern lists of the output filter (`regex_list_t` in src/filter.c)
  and the "does any pattern match" test over them.

  Regular-expression semantics (POSIX extended regular expressions, as compiled
  by `regcomp` with `REG_EXTENDED`, IEEE Std 1003.1 Base Definitions section 9.4)
  belong to the system library. The model does not interpret them: every
  operation takes the library's behaviour as parameters, a `Matcher` for
  `regexec` and a `Compiles` predicate for the success of `regcomp`.
 */
module RegexList {
  import opened Wrappers

  /** A pattern is kept as the text it was compiled from. */
  type Pattern = string

  /** `regexec` succeeding on (pattern, input): an uninterpreted predicate. */
  type Matcher = (Pattern, string) -> bool

  /** `regcomp` accepting the pattern text. */
  type Compiles = Pattern -> bool

  /** An ordered list of compiled patterns. */
  datatype RegexList = RegexList(regexs: seq<Pattern>)

  /** Why compilation stopped: the position and text of the rejected pattern. */
  datatype CompileError = CompileError(index: nat, pattern: Pattern)

  /** The reference meaning of a pattern list: some member matches the input. */
  ghost predicate AnyMatches(m: Matcher, patterns: seq<Pattern>, input: string)
  {
    exists p :: p in patterns && m(p, input)
  }

  /** The loop of `match`: tries the patterns from `idx` on, in order, and
      stops at the first one that matches. */
  function MatchFrom(m: Matcher, list: RegexList, input: string, idx: nat): (r: bool)
    requires idx <= |list.regexs|
    ensures r <==> exists i :: idx <= i < |list.regexs| && m(list.regexs[i], input)
    decreases |list.regexs| - idx
  {
    if idx == |list.regexs| then false
    else if m(list.regexs[idx], input) then true
    else MatchFrom(m, list, input, idx + 1)
  }

  /** `match`: true exactly when some pattern of the list matches the input;
      an empty list matches nothing. */
  function Match(m: Matcher, list: RegexList, input: string): (r: bool)
    ensures r <==> AnyMatches(m, list.regexs, input)
    ensures |list.regexs| == 0 ==> !r
  {
    var r := MatchFrom(m, list, input, 0);
    assert r ==> AnyMatches(m, list.regexs, input);
    assert AnyMatches(m, list.regexs, input) ==> r by {
      if AnyMatches(m, list.regexs, input) {
        var p :| p in list.regexs && m(p, input);
        var i :| 0 <= i < |list.regexs| && list.regexs[i] == p;
      }
    }
    r
  }

  /** Pattern order cannot change the verdict of `match`. */
  lemma MatchOrderIrrelevant(m: Matcher, a: RegexList, b: RegexList, input: string)
    requires multiset(a.regexs) == multiset(b.regexs)
    ensures Match(m, a, input) == Match(m, b, input)
  {
    forall p | p in a.regexs ensures p in b.regexs {
      assert p in multiset(a.regexs);
    }
    forall p | p in b.regexs ensures p in a.regexs {
      assert p in multiset(b.regexs);
    }
  }

  /** Only which patterns a list holds matters to `match`: neither their order
      nor how often each is repeated changes the verdict. */
  lemma MatchSameMembers(m: Matcher, a: RegexList, b: RegexList, input: string)
    requires forall p :: p in a.regexs <==> p in b.regexs
    ensures Match(m, a, input) == Match(m, b, input)
  {
  }

  /** The loop of `compile` from position `idx` on: stops at the first
      pattern the library rejects. */
  function CompileFrom(patterns: seq<Pattern>, compiles: Compiles, idx: nat): (r: Result<RegexList, CompileError>)
    requires idx <= |patterns|
    ensures r.Success? <==> forall i :: idx <= i < |patterns| ==> compiles(patterns[i])
    ensures r.Success? ==> r.value.regexs == patterns[idx..]
    ensures r.Failure? ==>
              && idx <= r.error.index < |patterns|
              && r.error.pattern == patterns[r.error.index]
              && !compiles(r.error.pattern)
              && forall i :: idx <= i < r.error.index ==> compiles(patterns[i])
    decreases |patterns| - idx
  {
    if idx == |patterns| then Success(RegexList([]))
    else if !compiles(patterns[idx]) then Failure(CompileError(idx, patterns[idx]))
    else
      match CompileFrom(patterns, compiles, idx + 1)
      case Failure(e) => Failure(e)
      case Success(rest) => Success(RegexList([patterns[idx]] + rest.regexs))
  }

  /** `compile`: succeeds, keeping every pattern in its configured order,
      exactly when the library accepts all of them; otherwise reports the
      first rejected pattern with its index (where the source prints the
      library's description of the failure and exits; that text is not modelled).
      An empty configuration yields the empty list. */
  function Compile(patterns: seq<Pattern>, compiles: Compiles): (r: Result<RegexList, CompileError>)
    ensures r.Success? <==> forall i :: 0 <= i < |patterns| ==> compiles(patterns[i])
    ensures r.Success? ==> r.value.regexs == patterns
    ensures r.Failure? ==>
              && r.error.index < |patterns|
              && r.error.pattern == patterns[r.error.index]
              && !compiles(r.error.pattern)
              && forall i :: 0 <= i < r.error.index ==> compiles(patterns[i])
  {
    CompileFrom(patterns, compiles, 0)
  }
}
