/**
 * The per-fixture records: the decoded description.yaml and the test case
 * that pairs it with the golden bytes of expected.out.
 */
module Fixtures {
  import opened Wrappers

  newtype byte = x: int | 0 <= x < 256

  /** The fields of description.yaml. */
  datatype TestDescription = TestDescription(
    name: string,        // used only in the subtest's label
    args: seq<string>,   // arguments after --repository <dir>
    bundle: string,      // bundle file, relative to the bundles directory
    error: bool)         // true when the binary is expected to fail

  /** A description together with the golden output of its fixture. */
  datatype TestCase = TestCase(desc: TestDescription, expected: seq<byte>)

  /** The two fatal setup failures of ReadTestCase. */
  datatype SetupError =
    | DescriptionUnavailable   // description.yaml unreadable or not decodable
    | GoldenMissing            // expected.out unreadable

  /**
   * ReadTestCase: the description is read first, then expected.out. The
   * description is None when the file could not be read or decoded; golden
   * is None when expected.out could not be read. The golden file is needed
   * whatever the description's error flag says.
   */
  function ReadTestCase(description: Option<TestDescription>, golden: Option<seq<byte>>): (r: Result<TestCase, SetupError>)
    ensures r.Ok? <==> description.Some? && golden.Some?
    ensures r.Ok? ==> r.value.desc == description.value && r.value.expected == golden.value
    ensures description.None? ==> r == Err(DescriptionUnavailable)
    ensures description.Some? && golden.None? ==> r == Err(GoldenMissing)
  {
    match description
    case None => Err(DescriptionUnavailable)
    case Some(desc) =>
      match golden
      case None => Err(GoldenMissing)
      case Some(expected) => Ok(TestCase(desc, expected))
  }

  /** A fixture expected to fail still cannot do without expected.out. */
  lemma GoldenRequiredWhenErrorExpected(desc: TestDescription)
    requires desc.error
    ensures ReadTestCase(Some(desc), None) == Err(GoldenMissing)
  {
  }
}
