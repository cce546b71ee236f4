/**
 * Running one case: the argument vector handed to the binary, the three
 * ways the run can end, and the rule that judges the run.
 */
module Runner {
  import opened Wrappers
  import opened Fixtures

  const RepositoryFlag: string := "--repository"

  /**
   * How cmd.Output() ended: a clean exit with the captured stdout, an
   * *exec.ExitError (the binary ran and exited unsuccessfully), or any other
   * error (the binary could not be started, its output could not be read).
   */
  datatype Outcome = Clean(output: seq<byte>) | ExitErr | OtherErr

  /** Why a subtest fails, one per require.* that can stop it. */
  datatype Failure =
    | TempDirFailed    // ioutil.TempDir returned an error
    | UnbundleFailed   // git clone of the bundle failed
    | RunErrored       // error expected false, but cmd.Output() returned an error
    | OutputDiffers    // error expected false, stdout differs from expected.out
    | ExitedCleanly    // error expected true, but the run returned no error
    | NotAnExitError   // error expected true, but the error is not an *exec.ExitError

  datatype Verdict = Pass | Fail(why: Failure)

  /** The vector `--repository <repo>` followed by the declared arguments. */
  function CommandArgs(repo: string, declared: seq<string>): (args: seq<string>)
    ensures |args| == |declared| + 2
    ensures args[0] == RepositoryFlag && args[1] == repo
    ensures forall i :: 0 <= i < |declared| ==> args[i + 2] == declared[i]
  {
    [RepositoryFlag, repo] + declared
  }

  /** Reads the repository and the declared arguments back from a vector. */
  function SplitCommandArgs(args: seq<string>): Option<(string, seq<string>)>
  {
    if |args| >= 2 && args[0] == RepositoryFlag then Some((args[1], args[2..])) else None
  }

  /** The vector determines the repository and the declared arguments. */
  lemma CommandArgsSplit(repo: string, declared: seq<string>)
    ensures SplitCommandArgs(CommandArgs(repo, declared)) == Some((repo, declared))
  {
    assert CommandArgs(repo, declared)[2..] == declared;
  }

  /** Every vector that starts with the repository flag is built by CommandArgs. */
  lemma SplitCommandArgsBuilds(args: seq<string>)
    requires SplitCommandArgs(args).Some?
    ensures CommandArgs(SplitCommandArgs(args).value.0, SplitCommandArgs(args).value.1) == args
  {
    assert args == [args[0], args[1]] + args[2..];
  }

  /**
   * The verdict branch of a subtest. Without the error flag the run must
   * exit cleanly with stdout identical to expected.out; with it the run
   * must end in an *exec.ExitError, and stdout is not looked at.
   */
  function Judge(tc: TestCase, o: Outcome): (v: Verdict)
    ensures v.Pass? <==> if tc.desc.error then o.ExitErr? else o == Clean(tc.expected)
    ensures v.Fail? ==> if tc.desc.error then v.why in {ExitedCleanly, NotAnExitError}
                                         else v.why in {RunErrored, OutputDiffers}
    ensures !tc.desc.error && o.Clean? && o.output != tc.expected ==> v == Fail(OutputDiffers)
  {
    if !tc.desc.error then
      match o
      case Clean(output) => if output == tc.expected then Pass else Fail(OutputDiffers)
      case _ => Fail(RunErrored)
    else
      match o
      case Clean(_) => Fail(ExitedCleanly)
      case ExitErr => Pass
      case OtherErr => Fail(NotAnExitError)
  }

  /** Expecting failure, a clean exit and a non-exit error both fail, and differently. */
  lemma ExitAndOtherErrorsKeptApart(tc: TestCase, output: seq<byte>)
    requires tc.desc.error
    ensures Judge(tc, ExitErr) == Pass
    ensures Judge(tc, OtherErr) == Fail(NotAnExitError)
    ensures Judge(tc, Clean(output)) == Fail(ExitedCleanly)
  {
  }

  /** Expecting success, an exit error and any other error fail alike. */
  lemma ErrorsFailWhenSuccessExpected(tc: TestCase)
    requires !tc.desc.error
    ensures Judge(tc, ExitErr) == Judge(tc, OtherErr) == Fail(RunErrored)
  {
  }

  /** The comparison is exact: one differing byte at any position fails. */
  lemma OneByteDiffers(tc: TestCase, output: seq<byte>, k: nat)
    requires !tc.desc.error && |output| == |tc.expected| && k < |output|
    requires output[k] != tc.expected[k]
    ensures Judge(tc, Clean(output)) == Fail(OutputDiffers)
  {
  }

  /** Expecting failure, the golden bytes play no part in the verdict. */
  lemma GoldenIgnoredWhenErrorExpected(tc: TestCase, golden: seq<byte>, o: Outcome)
    requires tc.desc.error
    ensures Judge(tc, o) == Judge(tc.(expected := golden), o)
  {
  }

  /** No outcome satisfies both expectations. */
  lemma ExpectationsExclusive(tc: TestCase, o: Outcome)
    ensures !(Judge(tc.(desc := tc.desc.(error := true)), o).Pass?
              && Judge(tc.(desc := tc.desc.(error := false)), o).Pass?)
  {
  }
}
