/**
 * TestGitFame: discover the fixtures, then load and run each one in a
 * subtest of its own. The filesystem, git and the binary are inputs.
 */
module Harness {
  import opened Wrappers
  import opened Strconv
  import opened Discovery
  import opened Fixtures
  import opened Runner

  /**
   * What the outside world answers. listing is ReadDir of the tests root
   * (None: it failed); description and golden are a fixture's decoded
   * description.yaml and its expected.out; tempDir is the directory
   * ioutil.TempDir creates for a fixture's subtest; unbundle says whether
   * `git clone <bundle> <dir>` succeeded; exec is how running the binary
   * with an argument vector ends.
   */
  datatype Env = Env(
    listing: Option<seq<Entry>>,
    description: string -> Option<TestDescription>,
    golden: string -> Option<seq<byte>>,
    tempDir: string -> Option<string>,
    unbundle: (string, string) -> bool,
    exec: seq<string> -> Outcome)

  /** One finished subtest, labelled `<fixture>/<name>`. */
  datatype SubtestResult = SubtestResult(fixture: string, name: string, verdict: Verdict)

  /** A fatal failure of the parent test, which ends the whole run. */
  datatype Abort =
    | ListingFailed
    | DiscoveryFailed(cause: DiscoveryError)
    | BadFixture(fixture: string, err: SetupError)

  datatype Report = Report(subtests: seq<SubtestResult>, abort: Option<Abort>)

  function FixtureOrder(subtests: seq<SubtestResult>): (r: seq<string>)
    ensures |r| == |subtests|
    ensures forall i :: 0 <= i < |subtests| ==> r[i] == subtests[i].fixture
  {
    if subtests == [] then [] else [subtests[0].fixture] + FixtureOrder(subtests[1..])
  }

  /** ReadTestCase on the fixture's files. */
  function LoadCase(env: Env, fixture: string): Result<TestCase, SetupError> {
    ReadTestCase(env.description(fixture), env.golden(fixture))
  }

  /**
   * The body of a subtest: make a temporary directory, clone the bundle
   * into it, run the binary on `--repository <dir>` plus the declared
   * arguments, and judge the outcome. A failure here ends only this subtest.
   */
  function Subtest(env: Env, fixture: string, tc: TestCase): (v: Verdict)
    ensures env.tempDir(fixture).None? ==> v == Fail(TempDirFailed)
    ensures env.tempDir(fixture).Some? ==>
              !env.unbundle(tc.desc.bundle, env.tempDir(fixture).value) ==> v == Fail(UnbundleFailed)
    ensures env.tempDir(fixture).Some? && env.unbundle(tc.desc.bundle, env.tempDir(fixture).value) ==>
              v == Judge(tc, env.exec(CommandArgs(env.tempDir(fixture).value, tc.desc.args)))
    ensures v.Fail? ==> (v.why == TempDirFailed <==> env.tempDir(fixture).None?)
    ensures v.Fail? ==>
              (v.why == UnbundleFailed <==>
                 env.tempDir(fixture).Some? && !env.unbundle(tc.desc.bundle, env.tempDir(fixture).value))
    ensures v.Pass? <==>
              && env.tempDir(fixture).Some?
              && env.unbundle(tc.desc.bundle, env.tempDir(fixture).value)
              && var o := env.exec([RepositoryFlag, env.tempDir(fixture).value] + tc.desc.args);
                 if tc.desc.error then o.ExitErr? else o == Clean(tc.expected)
  {
    match env.tempDir(fixture)
    case None => Fail(TempDirFailed)
    case Some(dir) =>
      var args := CommandArgs(dir, tc.desc.args);
      if !env.unbundle(tc.desc.bundle, dir) then Fail(UnbundleFailed)
      else Judge(tc, env.exec(args))
  }

  function CaseResult(env: Env, fixture: string, tc: TestCase): SubtestResult {
    SubtestResult(fixture, tc.desc.name, Subtest(env, fixture, tc))
  }

  /** The subtest is the one its own fixture's case produces. */
  predicate RanOwnCase(env: Env, s: SubtestResult) {
    LoadCase(env, s.fixture).Ok? && s == CaseResult(env, s.fixture, LoadCase(env, s.fixture).value)
  }

  /**
   * The loop over the discovered fixtures. A fixture whose case cannot be
   * loaded stops the run there (ReadTestCase fails the parent test); every
   * fixture before it has run its subtest, in order.
   */
  method RunCases(env: Env, fixtures: seq<string>) returns (report: Report)
    ensures |report.subtests| <= |fixtures|
    ensures report.abort.None? <==> |report.subtests| == |fixtures|
    ensures forall i :: 0 <= i < |report.subtests| ==>
              LoadCase(env, fixtures[i]).Ok? &&
              report.subtests[i] == CaseResult(env, fixtures[i], LoadCase(env, fixtures[i]).value)
    ensures report.abort.Some? ==>
              var k := |report.subtests|;
              LoadCase(env, fixtures[k]).Err? &&
              report.abort.value == BadFixture(fixtures[k], LoadCase(env, fixtures[k]).error)
  {
    var done: seq<SubtestResult> := [];
    for i := 0 to |fixtures|
      invariant |done| == i
      invariant forall j :: 0 <= j < i ==>
                  LoadCase(env, fixtures[j]).Ok? &&
                  done[j] == CaseResult(env, fixtures[j], LoadCase(env, fixtures[j]).value)
    {
      match LoadCase(env, fixtures[i]) {
        case Err(e) =>
          return Report(done, Some(BadFixture(fixtures[i], e)));
        case Ok(tc) =>
          done := done + [CaseResult(env, fixtures[i], tc)];
      }
    }
    return Report(done, None);
  }

  /**
   * TestGitFame without the binary cache: list and order the fixtures, then
   * run them. An unparsable name among two or more directories aborts
   * before any subtest; only a fixture that fails to load aborts later.
   * Subtests are reported in non-decreasing key order, each is judged on
   * its own fixture only, and an unaborted run covers every directory
   * exactly once; no fixture runs twice.
   */
  method TestGitFame(env: Env) returns (report: Report)
    ensures env.listing.None? ==> report == Report([], Some(ListingFailed))
    ensures report.abort == Some(ListingFailed) ==> env.listing.None?
    ensures report.abort.Some? && report.abort.value.DiscoveryFailed? ==>
              && env.listing.Some?
              && report.subtests == []
              && |DirNames(env.listing.value)| >= 2
              && report.abort.value.cause.name in DirNames(env.listing.value)
              && Atoi(report.abort.value.cause.name).Err?
    ensures env.listing.Some? && |DirNames(env.listing.value)| >= 2 && !AllParse(DirNames(env.listing.value)) ==>
              report.abort.Some? && report.abort.value.DiscoveryFailed?
    ensures report.abort.Some? && report.abort.value.BadFixture? ==>
              && env.listing.Some?
              && report.abort.value.fixture in DirNames(env.listing.value)
              && LoadCase(env, report.abort.value.fixture) == Err(report.abort.value.err)
    ensures env.listing.Some? && (|DirNames(env.listing.value)| < 2 || AllParse(DirNames(env.listing.value)))
              && (forall d :: d in DirNames(env.listing.value) ==> LoadCase(env, d).Ok?) ==>
              report.abort.None?
    ensures env.listing.Some? && |DirNames(env.listing.value)| >= 2 &&
            report.abort.Some? && report.abort.value.BadFixture? ==>
              && (forall d :: d in DirNames(env.listing.value) ==> Atoi(d).Ok?)
              && Atoi(report.abort.value.fixture).Ok?
              && (forall i :: 0 <= i < |report.subtests| ==>
                    Atoi(report.subtests[i].fixture).Ok? &&
                    Key(report.subtests[i].fixture) <= Key(report.abort.value.fixture))
              && (forall d :: d in DirNames(env.listing.value) && Key(d) < Key(report.abort.value.fixture) ==>
                    d in FixtureOrder(report.subtests))
    ensures env.listing.Some? ==>
              forall i :: 0 <= i < |report.subtests| ==>
                report.subtests[i].fixture in DirNames(env.listing.value) && RanOwnCase(env, report.subtests[i])
    ensures env.listing.Some? && |DirNames(env.listing.value)| >= 2 ==>
              SortedByKey(FixtureOrder(report.subtests))
    ensures env.listing.Some? && report.abort.None? ==>
              multiset(FixtureOrder(report.subtests)) == multiset(DirNames(env.listing.value))
    ensures env.listing.Some? ==>
              multiset(FixtureOrder(report.subtests)) <= multiset(DirNames(env.listing.value))
  {
    if env.listing.None? {
      return Report([], Some(ListingFailed));
    }
    var files := env.listing.value;
    var listed := ListTestDirs(files);
    if listed.Err? {
      return Report([], Some(DiscoveryFailed(listed.error)));
    }
    var dirs := listed.value;
    report := RunCases(env, dirs);
    RunFollowsListing(env, files, dirs, report);
    if report.abort.Some? {
      AbortFollowsListing(env, files, dirs, report);
    }
  }

  /** What the subtests of a run over the discovered order inherit from the listing. */
  lemma RunFollowsListing(env: Env, files: seq<Entry>, dirs: seq<string>, report: Report)
    requires multiset(dirs) == multiset(DirNames(files))
    requires |dirs| >= 2 ==> SortedByKey(dirs)
    requires |report.subtests| <= |dirs|
    requires report.abort.None? <==> |report.subtests| == |dirs|
    requires forall i :: 0 <= i < |report.subtests| ==>
               LoadCase(env, dirs[i]).Ok? &&
               report.subtests[i] == CaseResult(env, dirs[i], LoadCase(env, dirs[i]).value)
    ensures forall i :: 0 <= i < |report.subtests| ==>
              report.subtests[i].fixture in DirNames(files) && RanOwnCase(env, report.subtests[i])
    ensures |DirNames(files)| >= 2 ==> SortedByKey(FixtureOrder(report.subtests))
    ensures report.abort.None? ==> multiset(FixtureOrder(report.subtests)) == multiset(DirNames(files))
    ensures multiset(FixtureOrder(report.subtests)) <= multiset(DirNames(files))
  {
    ghost var ran := FixtureOrder(report.subtests);
    assert ran == dirs[..|ran|];
    PrefixOfDiscovered(dirs, ran, DirNames(files));
    forall i | 0 <= i < |report.subtests|
      ensures report.subtests[i].fixture in DirNames(files) && RanOwnCase(env, report.subtests[i])
    {
      assert report.subtests[i].fixture == ran[i];
    }
  }

  /** Where a run over the discovered order stops, and what ran before. */
  lemma AbortFollowsListing(env: Env, files: seq<Entry>, dirs: seq<string>, report: Report)
    requires multiset(dirs) == multiset(DirNames(files))
    requires |dirs| >= 2 ==> SortedByKey(dirs)
    requires |DirNames(files)| >= 2 ==> AllParse(DirNames(files))
    requires |report.subtests| <= |dirs|
    requires report.abort.None? <==> |report.subtests| == |dirs|
    requires forall i :: 0 <= i < |report.subtests| ==> report.subtests[i].fixture == dirs[i]
    requires report.abort.Some? ==>
               LoadCase(env, dirs[|report.subtests|]).Err? &&
               report.abort.value == BadFixture(dirs[|report.subtests|], LoadCase(env, dirs[|report.subtests|]).error)
    requires report.abort.Some?
    ensures report.abort.value.BadFixture?
    ensures report.abort.value.fixture in DirNames(files)
    ensures LoadCase(env, report.abort.value.fixture) == Err(report.abort.value.err)
    ensures !(forall d :: d in DirNames(files) ==> LoadCase(env, d).Ok?)
    ensures |DirNames(files)| >= 2 ==>
              && (forall d :: d in DirNames(files) ==> Atoi(d).Ok?)
              && Atoi(report.abort.value.fixture).Ok?
              && (forall i :: 0 <= i < |report.subtests| ==>
                    Atoi(report.subtests[i].fixture).Ok? &&
                    Key(report.subtests[i].fixture) <= Key(report.abort.value.fixture))
              && (forall d :: d in DirNames(files) && Key(d) < Key(report.abort.value.fixture) ==>
                    d in FixtureOrder(report.subtests))
  {
    var k := |report.subtests|;
    ghost var ran := FixtureOrder(report.subtests);
    assert ran == dirs[..k];
    assert dirs[k] in multiset(DirNames(files)) by {
      assert dirs[k] in multiset(dirs);
    }
    if |DirNames(files)| >= 2 {
      assert |dirs| == |DirNames(files)| by {
        assert |multiset(dirs)| == |multiset(DirNames(files))|;
      }
      RanBeforeAbort(dirs, ran, DirNames(files));
      forall i | 0 <= i < k
        ensures Atoi(report.subtests[i].fixture).Ok? && Key(report.subtests[i].fixture) <= Key(dirs[k])
      {
        assert report.subtests[i].fixture == ran[i];
      }
    }
  }

  /** What a prefix of the discovered order inherits from ListTestDirs. */
  lemma PrefixOfDiscovered(dirs: seq<string>, ran: seq<string>, names: seq<string>)
    requires multiset(dirs) == multiset(names)
    requires |dirs| >= 2 ==> SortedByKey(dirs)
    requires |ran| <= |dirs| && ran == dirs[..|ran|]
    ensures forall d :: d in ran ==> d in names
    ensures |names| >= 2 ==> SortedByKey(ran)
    ensures multiset(ran) <= multiset(names)
    ensures |ran| == |dirs| ==> multiset(ran) == multiset(names)
  {
    assert dirs == ran + dirs[|ran|..];
    SameMembers(names, dirs);
    assert |names| == |dirs| by {
      assert |multiset(names)| == |multiset(dirs)|;
    }
  }

  /**
   * When the run aborts on the fixture at position |ran| of the sorted
   * order, every fixture with a smaller key has already run.
   */
  lemma RanBeforeAbort(dirs: seq<string>, ran: seq<string>, names: seq<string>)
    requires multiset(dirs) == multiset(names)
    requires SortedByKey(dirs) && AllParse(names)
    requires |ran| < |dirs| && ran == dirs[..|ran|]
    ensures forall d :: d in names ==> Atoi(d).Ok?
    ensures forall i :: 0 <= i < |ran| ==> Atoi(ran[i]).Ok? && Key(ran[i]) <= Key(dirs[|ran|])
    ensures forall d :: d in names && Key(d) < Key(dirs[|ran|]) ==> d in ran
  {
    MembersParse(names);
    SameMembers(dirs, names);
    SmallerKeysFirst(dirs, ran);
  }

  lemma MembersParse(names: seq<string>)
    requires AllParse(names)
    ensures forall d :: d in names ==> Atoi(d).Ok?
  {
    forall d | d in names ensures Atoi(d).Ok? {
      var m :| 0 <= m < |names| && names[m] == d;
    }
  }

  lemma SameMembers(a: seq<string>, b: seq<string>)
    requires multiset(a) == multiset(b)
    ensures forall d :: d in b ==> d in a
  {
    forall d | d in b ensures d in a {
      assert d in multiset(b);
    }
  }

  /** In a sorted order, every name with a key below that of position |ran| lies in the prefix ran. */
  lemma SmallerKeysFirst(dirs: seq<string>, ran: seq<string>)
    requires SortedByKey(dirs) && |ran| < |dirs| && ran == dirs[..|ran|]
    ensures forall i :: 0 <= i < |ran| ==> Atoi(ran[i]).Ok? && Key(ran[i]) <= Key(dirs[|ran|])
    ensures forall d :: d in dirs && Key(d) < Key(dirs[|ran|]) ==> d in ran
  {
    var k := |ran|;
    assert forall j :: k <= j < |dirs| ==> Key(dirs[k]) <= Key(dirs[j]);
    forall d | d in dirs && Key(d) < Key(dirs[k]) ensures d in ran {
      var m :| 0 <= m < |dirs| && dirs[m] == d;
      assert ran[m] == d;
    }
  }
}
