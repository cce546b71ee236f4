/**
 * Fixture discovery: ListTestDirs keeps the directory entries of the tests
 * root and orders their names by the integer strconv.Atoi reads from them.
 */
module Discovery {
  import opened Wrappers
  import opened Strconv

  /** One entry of the directory listing: its name and whether it is a directory. */
  datatype Entry = Entry(name: string, isDir: bool)

  /** Why discovery stops: a directory name that Atoi rejects. */
  datatype DiscoveryError = BadDirName(name: string, err: NumError)

  /** The names of the directory entries, in listing order. */
  function DirNames(files: seq<Entry>): seq<string>
  {
    if files == [] then []
    else
      var last := files[|files| - 1];
      DirNames(files[..|files| - 1]) + (if last.isDir then [last.name] else [])
  }

  /** A name is collected exactly when some directory entry carries it. */
  lemma {:induction false} DirNamesMembers(files: seq<Entry>, x: string)
    ensures x in DirNames(files) <==> exists i :: 0 <= i < |files| && files[i].isDir && files[i].name == x
  {
    if files != [] {
      var init := files[..|files| - 1];
      DirNamesMembers(init, x);
      if x in DirNames(init) {
        var i :| 0 <= i < |init| && init[i].isDir && init[i].name == x;
        assert files[i] == init[i];
      }
      if exists i :: 0 <= i < |files| && files[i].isDir && files[i].name == x {
        var i :| 0 <= i < |files| && files[i].isDir && files[i].name == x;
        if i < |init| {
          assert init[i] == files[i];
        }
      }
    }
  }

  /** The positions of the directory entries named x. */
  ghost function DirsNamed(files: seq<Entry>, x: string): set<int>
  {
    set i | 0 <= i < |files| && files[i].isDir && files[i].name == x
  }

  /** Whether the last entry of a non-empty listing is a directory named x. */
  predicate LastIsDirNamed(files: seq<Entry>, x: string)
    requires files != []
  {
    files[|files| - 1].isDir && files[|files| - 1].name == x
  }

  lemma CountStep(files: seq<Entry>, x: string)
    requires files != []
    ensures multiset(DirNames(files))[x]
            == multiset(DirNames(files[..|files| - 1]))[x] + (if LastIsDirNamed(files, x) then 1 else 0)
  {
    var n := |files| - 1;
    var tail := if files[n].isDir then [files[n].name] else [];
    assert DirNames(files) == DirNames(files[..n]) + tail;
    assert multiset(DirNames(files)) == multiset(DirNames(files[..n])) + multiset(tail);
  }

  lemma DirsNamedStep(files: seq<Entry>, x: string)
    requires files != []
    ensures |DirsNamed(files, x)|
            == |DirsNamed(files[..|files| - 1], x)| + (if LastIsDirNamed(files, x) then 1 else 0)
  {
    var n := |files| - 1;
    var init := files[..n];
    var before := DirsNamed(init, x);
    var extra: set<int> := if LastIsDirNamed(files, x) then {n} else {};
    forall i | i in DirsNamed(files, x) ensures i in before + extra {
      if i < n {
        assert init[i] == files[i];
      }
    }
    forall i | i in before ensures i in DirsNamed(files, x) {
      assert init[i] == files[i];
    }
    assert DirsNamed(files, x) == before + extra;
    assert n !in before;
  }

  /** Each name is collected once per directory entry carrying it, and never for other entries. */
  lemma {:induction false} DirNamesCount(files: seq<Entry>, x: string)
    ensures multiset(DirNames(files))[x] == |DirsNamed(files, x)|
  {
    if files != [] {
      DirNamesCount(files[..|files| - 1], x);
      CountStep(files, x);
      DirsNamedStep(files, x);
    }
  }

  predicate AllParse(names: seq<string>) {
    forall i :: 0 <= i < |names| ==> Atoi(names[i]).Ok?
  }

  /** The ordering key of a directory name. */
  function Key(name: string): int
    requires Atoi(name).Ok?
  {
    Atoi(name).value
  }

  /** Every name parses and the keys do not decrease. */
  predicate SortedByKey(names: seq<string>) {
    AllParse(names) && forall i, j :: 0 <= i < j < |names| ==> Key(names[i]) <= Key(names[j])
  }

  /** Every name parses and the keys of the first n names do not decrease. */
  predicate SortedPrefix(s: seq<string>, n: nat)
    requires n <= |s|
  {
    AllParse(s) && forall p, q :: 0 <= p < q < n ==> Key(s[p]) <= Key(s[q])
  }

  /** Exchanges the names at j - 1 and j. */
  method SwapDown(a: array<string>, j: nat)
    requires 0 < j < a.Length
    modifies a
    ensures a[..] == old(a[..])[j - 1 := old(a[j])][j := old(a[j - 1])]
    ensures multiset(a[..]) == multiset(old(a[..]))
  {
    a[j - 1], a[j] := a[j], a[j - 1];
  }

  /** One insertion step: moves a[i] down into the sorted prefix a[..i]. */
  method InsertDown(a: array<string>, i: nat)
    requires 0 < i < a.Length && SortedPrefix(a[..], i)
    modifies a
    ensures SortedPrefix(a[..], i + 1)
    ensures multiset(a[..]) == multiset(old(a[..]))
  {
    var j := i;
    while j > 0 && Key(a[j - 1]) > Key(a[j])
      invariant 0 <= j <= i
      invariant AllParse(a[..])
      invariant forall p, q :: 0 <= p < q <= i && p != j && q != j ==> Key(a[..][p]) <= Key(a[..][q])
      invariant forall q :: j < q <= i ==> Key(a[..][j]) < Key(a[..][q])
      invariant multiset(a[..]) == multiset(old(a[..]))
    {
      SwapDown(a, j);
      j := j - 1;
    }
  }

  /**
   * sort.Slice(names, less) with less(i, j) == toInt(names[i]) < toInt(names[j]),
   * here as an insertion sort. The order among equal keys is not part of the
   * contract, as Go's sort.Slice is not stable.
   */
  method SortByKey(a: array<string>)
    requires AllParse(a[..])
    modifies a
    ensures SortedByKey(a[..])
    ensures multiset(a[..]) == multiset(old(a[..]))
  {
    if a.Length < 2 {
      return;
    }
    var i := 1;
    while i < a.Length
      invariant 1 <= i <= a.Length
      invariant SortedPrefix(a[..], i)
      invariant multiset(a[..]) == multiset(old(a[..]))
    {
      InsertDown(a, i);
      i := i + 1;
    }
  }

  /**
   * ListTestDirs over the listing ReadDir returned: collect the names of the
   * directory entries, then sort them by key. With two or more names every
   * name is compared, so one that Atoi rejects makes discovery fail; which
   * of several bad names is met first is not specified. With fewer than two
   * names the sort compares nothing and the name is returned unparsed.
   */
  method ListTestDirs(files: seq<Entry>) returns (r: Result<seq<string>, DiscoveryError>)
    ensures r.Err? <==> |DirNames(files)| >= 2 && !AllParse(DirNames(files))
    ensures r.Err? ==> r.error.name in DirNames(files) && Atoi(r.error.name) == Err(r.error.err)
    ensures r.Ok? ==> multiset(r.value) == multiset(DirNames(files))
    ensures r.Ok? && |r.value| >= 2 ==> SortedByKey(r.value)
    ensures r.Ok? && |DirNames(files)| < 2 ==> r.value == DirNames(files)
  {
    var names: seq<string> := [];
    for i := 0 to |files|
      invariant names == DirNames(files[..i])
    {
      assert files[..i + 1][..i] == files[..i];
      if files[i].isDir {
        names := names + [files[i].name];
      }
    }
    assert files[..|files|] == files;
    if |names| < 2 {
      return Ok(names);
    }
    if exists k :: 0 <= k < |names| && Atoi(names[k]).Err? {
      var k :| 0 <= k < |names| && Atoi(names[k]).Err?;
      return Err(BadDirName(names[k], Atoi(names[k]).error));
    }
    var a := new string[|names|](i requires 0 <= i < |names| => names[i]);
    assert a[..] == names;
    SortByKey(a);
    return Ok(a[..]);
  }
}
