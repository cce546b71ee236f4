# gitfame integration harness, modelled in Dafny

The gitfame integration test turns fixture directories into runs of the
gitfame binary and judges each run against a golden file. This project
models the decision logic of that harness. It covers:

- **Discovery** (`ListTestDirs`). Only the directory entries of the tests root are kept. Their names are then sorted by the integer that `strconv.Atoi` reads from them.
- **Loading** (`ReadTestCase`). The decoded `description.yaml` is paired with the bytes of `expected.out`.
- **Running** one case. The argument vector is `--repository <tmp>` followed by the declared arguments.
- **Judging** the run. `cmd.Output()` ends in one of three ways: a clean exit with stdout (`Clean`), an `*exec.ExitError` (`ExitErr`), or any other error (`OtherErr`).
- **The loop of `TestGitFame`** over the fixtures. A fixture that cannot be loaded ends the whole run. A failure inside a subtest ends only that subtest.

The filesystem, YAML decoding, `git clone` and the child process are
inputs to the model (`Harness.Env`). Modules:

- `Wrappers`: `Option` and `Result`.
- `Strconv`: `Atoi`, as Go's `ParseInt(s, 10, 64)` on a 64-bit platform, with a reference definition of decimal numerals.
- `Discovery`: `Entry`, `ListTestDirs` (a collecting loop, then an in-place insertion sort on an array) and the lemmas about it.
- `Fixtures`: `TestDescription`, `TestCase`, `ReadTestCase`.
- `Runner`: `CommandArgs`, `Outcome`, `Judge`.
- `Harness`: the per-fixture subtest and `TestGitFame`.

`strconv.Atoi` belongs to Go's standard library, outside the modelled
file. `Strconv.Atoi` follows its documented behaviour and the
left-to-right scan of `ParseUint`:
- an optional sign, then one or more decimal digits, with no underscores or base prefix;
- values outside the int64 range are a range error;
- digits are scanned left to right, so the first problem met decides between a syntax error and a range error.

Edge cases of the code that the model keeps:

- A single directory with a non-numeric name is accepted. Names are parsed only inside the sort's comparison, and `sort.Slice` compares nothing when there are fewer than two names. `ListTestDirs` states this (`r.value == DirNames(files)` when there are fewer than two names).
- A leading `+` or `-` is accepted, so `-3` is a valid fixture name.
- The order is non-decreasing. Equal keys may appear, and their relative order is unspecified.
- `expected.out` is read for every fixture, including those with `error: true`. A missing file is fatal either way.

## Model

| member | source | states |
|---|---|---|
| `Strconv.Atoi` | gitfame/test/integration/gitfame_test.go:84-88 | a key that parses lies in the int64 range |
| `Strconv.AtoiIsNumeralValue` | gitfame/test/integration/gitfame_test.go:84-88 | Atoi succeeds if and only if the name is an optional sign followed by digits whose value fits in int64, and then it returns that value |
| `Strconv.AtoiOutOfRange` | gitfame/test/integration/gitfame_test.go:85-86 | a well-formed numeral outside int64 is rejected with a range error |
| `Strconv.AtoiShortNonNumeral` | gitfame/test/integration/gitfame_test.go:85-86 | a name of at most 20 characters that is not a numeral is rejected with a syntax error |
| `Strconv.AtoiAcceptsSign` | gitfame/test/integration/gitfame_test.go:84-88 | "-3", "+3" and "007" are valid keys (-3, 3, 7) |
| `Strconv.AtoiRejectsMalformed` | gitfame/test/integration/gitfame_test.go:85-86 | the empty name, a lone sign, an underscore and a leading space are syntax errors |
| `Discovery.DirNamesMembers` | gitfame/test/integration/gitfame_test.go:76-82 | a name is collected if and only if some directory entry carries it; non-directory entries contribute nothing |
| `Discovery.DirNamesCount` | gitfame/test/integration/gitfame_test.go:76-82 | each name occurs in the result exactly as often as directory entries carry it |
| `Discovery.SortByKey` | gitfame/test/integration/gitfame_test.go:90-92 | sorting in place leaves the names in non-decreasing key order and is a permutation of its input |
| `Discovery.ListTestDirs` | gitfame/test/integration/gitfame_test.go:70-95 | fails if and only if there are two or more directory names and one of them does not parse, reporting such a name; otherwise the result has exactly the directory names as a multiset and is sorted by key when two or more; fewer than two names come back unparsed |
| `Fixtures.ReadTestCase` | gitfame/test/integration/gitfame_test.go:102-111 | a case loads if and only if both the description and expected.out are available; a missing description is reported before a missing golden file |
| `Fixtures.GoldenRequiredWhenErrorExpected` | gitfame/test/integration/gitfame_test.go:107-110 | a fixture expecting failure still fails to load without expected.out |
| `Runner.CommandArgs` | gitfame/test/integration/gitfame_test.go:49-50 | the vector is the repository flag, the repository, then the declared arguments in their original order |
| `Runner.CommandArgsSplit` | gitfame/test/integration/gitfame_test.go:49-50 | the repository and the declared arguments can be read back from the vector |
| `Runner.SplitCommandArgsBuilds` | gitfame/test/integration/gitfame_test.go:49-50 | every vector that starts with the repository flag is the vector of what it splits into |
| `Runner.Judge` | gitfame/test/integration/gitfame_test.go:57-65 | passes if and only if, without the error flag, the run exited cleanly with stdout equal to the golden bytes, or, with it, the run ended in an exit error; each failure names the branch it came from, and a clean run with different stdout fails as an output mismatch |
| `Runner.ExitAndOtherErrorsKeptApart` | gitfame/test/integration/gitfame_test.go:61-64 | expecting failure, an exit error passes, while a clean exit and a non-exit error fail with different reasons |
| `Runner.ErrorsFailWhenSuccessExpected` | gitfame/test/integration/gitfame_test.go:58-59 | expecting success, an exit error and any other error fail the same way |
| `Runner.OneByteDiffers` | gitfame/test/integration/gitfame_test.go:60 | one differing byte at any position fails the comparison |
| `Runner.GoldenIgnoredWhenErrorExpected` | gitfame/test/integration/gitfame_test.go:61-65 | expecting failure, the golden bytes do not affect the verdict |
| `Runner.ExpectationsExclusive` | gitfame/test/integration/gitfame_test.go:58-65 | no outcome passes under both settings of the error flag |
| `Harness.Subtest` | gitfame/test/integration/gitfame_test.go:44-66 | a subtest passes if and only if its temporary directory was created, the bundle was cloned into it, and the binary run on `--repository <dir>` plus the declared arguments meets the expectation; once setup has succeeded the verdict is `Judge` of that run; a failure is blamed on the temporary directory or on the clone exactly when that step failed, so a failure of the binary is never reported as a setup failure; setup failures fail only this subtest |
| `Harness.RunCases` | gitfame/test/integration/gitfame_test.go:41-67 | fixtures run in the given order, each judged on its own case; the first fixture whose case cannot be loaded aborts the run, and nothing after it runs |
| `Harness.TestGitFame` | gitfame/test/integration/gitfame_test.go:33-68 | a failed listing aborts before any subtest; with two or more directories, an unparsable name aborts before any subtest, and only then; a later abort names a listed fixture whose case fails to load, and when every case loads nothing aborts; when a fixture fails to load, every fixture with a smaller key has already run, and none that ran has a larger key; subtests come in non-decreasing key order, each from a directory entry and judged on its own fixture; a run that is not aborted covers every directory exactly once, and in any run no fixture appears more often than it is listed, so none runs twice |

## Left out

- `TestMain`, the `binCache` global and `GetBinary` (lines 21-35): a foreign package and process-wide lifecycle. The model runs "the binary" through `Env.exec`.
- `ioutil.ReadDir`, `ioutil.ReadFile`, `ioutil.TempDir`, `os.RemoveAll` and the deferred cleanup: filesystem I/O. Their results are inputs (`Env.listing`, `Env.description`, `Env.golden`, `Env.tempDir`), and cleanup is not modelled.
- `yaml.Unmarshal` and the file read in `ReadTestDescription`: library I/O. Each fixture's description is given already decoded, or as `None` when it could not be read or decoded. The two causes are not told apart.
- `Unbundle` (`git clone`): an external tool. Only its success is an input (`Env.unbundle`).
- `path.Join` / `filepath.Join`: path plumbing. Fixtures are identified by their directory name, and bundles by their declared path.
- `exec.Command`, `cmd.Output` and discarding stderr: process execution. This becomes `Outcome`. The partial stdout that Go returns alongside an `*exec.ExitError` is never inspected by the source, so it is not carried.
- `t.Run` scheduling and the mechanics of `require.*` / `t.FailNow`: test-framework machinery. A fatal failure becomes an `Abort` of the run or a `Fail` of the subtest.
- Discovery.ListTestDirs: parses names up front instead of inside the comparator, and picks any unparsable name as the reported one. Go's comparator fails on whichever bad name `sort.Slice` meets first. Both fail fatally under the same condition, but which name is reported is left open.
- Discovery.SortByKey: says nothing about the order among equal keys, because Go's `sort.Slice` is not stable and leaves that order unspecified.
- Strconv.Atoi: models Go's `int` as 64 bits. A 32-bit platform's narrower range is not modelled.
- Harness.Subtest: `Env.exec` makes the outcome a pure function of the argument vector. The cloned bundle's contents and any state left by earlier runs cannot affect it, so the independence of cases holds by construction and is not proved about a stateful filesystem or process.
- Strconv.Atoi: directory names are sequences of Dafny `char` where Go has byte strings. The digits and signs are ASCII, so this does not change which names parse or their values.
