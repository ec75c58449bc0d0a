# Bear output filter: a Dafny model

Bear records compiler invocations to build a compilation database. Its output
filter (`src/filter.c`) looks at one observed process invocation and decides
three things. Is the program a compiler? If so, which argument is the source
file? And does a "cancel" argument void the whole invocation? The chosen
source file is made absolute against the invocation's working directory.

The model has four modules:

- `Wrappers` (wrappers.dfy): `Option` stands for a nullable C pointer, and
  `Result` carries a value or an error.
- `RegexList` (regex_list.dfy): the ordered pattern lists (`regex_list_t`).
  It models `match` (does any pattern match) and `compile` (stops at the first
  pattern the library rejects). Regex semantics are POSIX extended regular
  expressions, from `regcomp` with `REG_EXTENDED` (IEEE Std 1003.1, Base
  Definitions, section 9.4). They stay uninterpreted: `regexec` is a parameter
  `m: Matcher`, and the success of `regcomp` is a parameter `compiles`.
- `Paths` (paths.dfy): `fix_path`.
- `Filter` (filter.dfy): the filter as three pattern lists, the observed
  invocation as `Message(cmd, cwd)`, and `bear_filter_source_file`. The
  latter is a recursive scan with one candidate slot. Its contract is a
  closed-form characterisation. A result exists exactly when some index `i`
  is `Accepted`:
  - the argument list is non-empty;
  - the program name matches a compiler pattern;
  - `i` is the first argument matching a source-file pattern;
  - no argument other than `i` matches a cancel pattern.

  The result is then `FixPath(cmd[i], cwd)`.
- `Scenarios` (scenarios.dfy): worked classifications. The filter recognises
  `gcc`, `.c` files and `-E`. Each scenario assumes only what POSIX says about
  those three anchored patterns.

Classification is a pure function of the filter and the message. Classifying
the same invocation twice with the same filter therefore gives the same
verdict.

A note on the per-argument branch. The code uses `if … else if`
(src/filter.c:113-117). The argument being claimed as the candidate is therefore never tested against the
cancel patterns. The model follows the code. `CandidateNotCancelTested`
states this behaviour.

## Model

| member | source | states |
|---|---|---|
| RegexList.Match | src/filter.c:157-167 | true exactly when some pattern in the list matches the input; an empty list matches nothing |
| RegexList.MatchFrom | src/filter.c:159-166 | the loop from index `idx` answers true exactly when some pattern at or after `idx` matches |
| RegexList.MatchOrderIrrelevant | src/filter.c:157-167 | two lists holding the same patterns (as multisets) give the same verdict on every input: pattern order never changes the result |
| RegexList.MatchSameMembers | src/filter.c:157-167 | two lists holding the same set of patterns give the same verdict on every input, whatever their order or repetitions |
| RegexList.CompileFrom | src/filter.c:140-154 | from index `idx`, succeeds with the remaining patterns in order exactly when all compile; otherwise names the first rejected index at or after `idx` |
| RegexList.Compile | src/filter.c:132-155 | succeeds, keeping the configured patterns in order, exactly when the library accepts all of them; otherwise reports the first rejected pattern and its index, with all earlier ones accepted; an empty configuration gives an empty list |
| Paths.FixPath | src/filter.c:201-221 | an absolute file (first character `/`) is returned unchanged; otherwise the result splits into the cwd, one `/`, and the file |
| Paths.FixPathEndsWithFile | src/filter.c:204-215 | the file is always the tail of the result |
| Paths.FixPathIsAbsolute | src/filter.c:204-215 | the result is absolute whenever the file or the cwd is absolute |
| Paths.FixPathIdempotent | src/filter.c:204-215 | with an absolute cwd, fixing an already fixed path changes nothing, whatever cwd is used the second time |
| Paths.FixPathEmptyFile | src/filter.c:204-215 | an empty file is relative and yields `cwd + "/"` |
| Filter.Scan | src/filter.c:110-126 | starting with an empty slot: a result exists exactly when a first source-file argument from `k` on exists and no other argument from `k` on cancels, and that result is the fixed path; starting with a held candidate: the candidate survives exactly when no later argument cancels |
| Filter.SourceFile | src/filter.c:103-129 | a result exists exactly when some index is Accepted, and it then equals `FixPath(cmd[i], cwd)` |
| Filter.NotACompilerCall | src/filter.c:105-107 | an empty argument list, or a program name matching no compiler pattern, gives none whatever the source-file and cancel lists hold |
| Filter.ProgramNameMayBeSource | src/filter.c:110-116 | the scan starts at the program name, so the program name itself becomes the source file when it matches a source-file pattern and nothing after it cancels |
| Filter.ResultIsFirstSource | src/filter.c:113-116 | every result is the first source-file-matching argument passed through `fix_path`; later matches never replace it |
| Filter.CandidateNotCancelTested | src/filter.c:113-117 | the argument claimed as the candidate may also match a cancel pattern without voiding the result |
| Filter.CancelVoids | src/filter.c:117-125 | any argument that is not the first source-file argument and matches a cancel pattern gives none; this holds before the candidate, after it, or with no candidate |
| Filter.PatternOrderIrrelevant | src/filter.c:103-129 | reordering the patterns inside any of the three lists never changes a classification |
| Scenarios.GccVerdicts | src/filter.c:157-167 | with the `gcc` / `.c` / `-E` filter, each list gives the expected verdict on each argument used in the scenarios |
| Scenarios.CompileOneFile | src/filter.c:103-129 | `gcc -c foo.c` in `/home/u` gives `/home/u/foo.c` |
| Scenarios.CancelAfterCandidate | src/filter.c:117-125 | `gcc foo.c -E` gives none: the cancel flag discards the candidate |
| Scenarios.CompilerMismatch | src/filter.c:107 | `clang foo.c` gives none |
| Scenarios.AbsoluteSourceKept | src/filter.c:204-206 | `gcc /a/b.c` in `/x/y` gives `/a/b.c` unchanged |

## Left out

- Regular-expression matching and compilation (`regcomp`, `regexec`,
  `regerror`, src/filter.c:145-151, 163) belong to the system library. They
  are parameters (`Matcher`, `Compiles`), not a model of POSIX extended
  regular expressions.
- Configuration loading (`bear_filter_read_from_file`, `bear_filter_create`,
  `get_setting`, src/filter.c:53-92, 180-199). These are thin wrappers over
  libconfig, which is not part of this model, and they end the process with a
  diagnostic. Where `compile` prints the library's (`regerror`) description
  of a rejected pattern and exits, `Compile` returns the index and text of
  the first rejected pattern; the message text is not modelled.
- Memory management. This covers `release`, `bear_filter_delete`, freeing the
  discarded candidate, and the process exit when `malloc`, `strdup` or
  `asprintf` fail. It carries ownership bookkeeping only and no decision.
  Note also that `compile` returns early on an empty list without setting
  `regexs`, which `release` later frees. That is a C lifetime defect outside
  the decision logic.
- The C argument vector is a NUL-terminated pointer array. It is modelled as
  `seq<string>`, and a null and an empty vector are both the empty sequence.
- Diagnostic text on stderr is not modelled.
- C arguments and the working directory are NUL-free byte strings; the model
  uses Dafny `string`, a sequence of Unicode characters that may contain
  `'\0'` and cannot hold bytes that are not valid UTF-8. The decision logic
  does not depend on the difference: `fix_path` only compares the first
  character with `/` and concatenates, and matching is uninterpreted.
