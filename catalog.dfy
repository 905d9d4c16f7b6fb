/** The source catalog of the synthetic dataset generator (`_load_dataset`):
    image paths and label-file paths are paired by position, up to the shorter
    list; a pair whose label file does not exist is skipped; every other label
    file is parsed, and the first one that does not parse aborts the load. */
module Catalog {
  import opened Wrappers
  import opened Seqs
  import opened LabelParse

  /** One usable (image, label file) pair: the image path and its parsed label rows. */
  datatype SourceEntry = SourceEntry(imagePath: string, labels: seq<LabelRow>)

  /** The files the loader sees: a path is a key exactly when os.path.exists
      holds for it, and maps to the text of that file. */
  type FileSystem = map<string, string>

  datatype CatalogError = CatalogError(labelPath: string, error: FileError)

  /** Python's zip(a, b): pairs by position, stopping at the shorter input. */
  function Zip(a: seq<string>, b: seq<string>): (r: seq<(string, string)>)
    ensures |r| == if |a| <= |b| then |a| else |b|
    ensures forall i :: 0 <= i < |r| ==> r[i] == (a[i], b[i])
  {
    if a == [] || b == [] then []
    else
      var rest := Zip(a[1..], b[1..]);
      assert forall i :: 1 <= i < 1 + |rest| ==> ([(a[0], b[0])] + rest)[i] == rest[i - 1];
      [(a[0], b[0])] + rest
  }

  function HasLabelFile(fs: FileSystem): ((string, string)) -> bool {
    (p: (string, string)) => p.1 in fs
  }

  /** The pairs whose label file exists, in input order. */
  function ExistingPairs(pairs: seq<(string, string)>, fs: FileSystem): seq<(string, string)> {
    Filter(pairs, HasLabelFile(fs))
  }

  /** One turn of the loading loop: skip a pair without label file, parse the
      label file of any other, and stop at the first parse error. */
  function LoadStep(before: Result<seq<SourceEntry>, CatalogError>, pair: (string, string), fs: FileSystem)
    : Result<seq<SourceEntry>, CatalogError>
  {
    if before.Err? || pair.1 !in fs then before
    else
      var rows := ParseLabelFile(fs[pair.1]);
      if rows.Err? then Err(CatalogError(pair.1, rows.error))
      else Ok(before.value + [SourceEntry(pair.0, rows.value)])
  }

  /** What the loading loop has built after the given pairs: one entry per
      existing label file, or the error of the first file that fails to parse. */
  function BuildCatalog(pairs: seq<(string, string)>, fs: FileSystem): Result<seq<SourceEntry>, CatalogError> {
    if pairs == [] then Ok([])
    else LoadStep(BuildCatalog(pairs[..|pairs| - 1], fs), pairs[|pairs| - 1], fs)
  }

  lemma BuildPrefix(pairs: seq<(string, string)>, i: nat, fs: FileSystem)
    requires i < |pairs|
    ensures BuildCatalog(pairs[..i + 1], fs) == LoadStep(BuildCatalog(pairs[..i], fs), pairs[i], fs)
  {
    assert pairs[..i + 1][..i] == pairs[..i];
  }

  /** `_load_dataset`: the loop over zip(image_paths, label_paths) that appends
      one entry per existing label file. */
  method LoadDataset(imagePaths: seq<string>, labelPaths: seq<string>, fs: FileSystem)
    returns (r: Result<seq<SourceEntry>, CatalogError>)
    ensures r == BuildCatalog(Zip(imagePaths, labelPaths), fs)
  {
    var pairs := Zip(imagePaths, labelPaths);
    var dataset: seq<SourceEntry> := [];
    var i := 0;
    while i < |pairs|
      invariant 0 <= i <= |pairs|
      invariant BuildCatalog(pairs[..i], fs) == Ok(dataset)
    {
      var image, labelPath := imagePaths[i], labelPaths[i];
      BuildPrefix(pairs, i, fs);
      if labelPath !in fs {
        i := i + 1;
        continue;
      }
      var rows := ParseLabelFile(fs[labelPath]);
      if rows.Err? {
        ErrorPersists(pairs, i + 1, fs);
        return Err(CatalogError(labelPath, rows.error));
      }
      dataset := dataset + [SourceEntry(image, rows.value)];
      i := i + 1;
    }
    assert pairs[..i] == pairs;
    r := Ok(dataset);
  }

  /** Once a prefix has failed, the whole load fails with the same error. */
  lemma {:induction false} ErrorPersists(pairs: seq<(string, string)>, n: nat, fs: FileSystem)
    requires n <= |pairs| && BuildCatalog(pairs[..n], fs).Err?
    ensures BuildCatalog(pairs, fs) == BuildCatalog(pairs[..n], fs)
    decreases |pairs| - n
  {
    if n < |pairs| {
      assert pairs[..n + 1][..n] == pairs[..n];
      ErrorPersists(pairs, n + 1, fs);
    } else {
      assert pairs[..n] == pairs;
    }
  }

  /** A successful load holds exactly one entry per pair whose labelPath file
      exists, in input order, each carrying that file's parsed rows. */
  lemma {:induction false} CatalogOfExistingPairs(pairs: seq<(string, string)>, fs: FileSystem)
    requires BuildCatalog(pairs, fs).Ok?
    ensures var cat, kept := BuildCatalog(pairs, fs).value, ExistingPairs(pairs, fs);
      |cat| == |kept| &&
      forall k :: 0 <= k < |cat| ==>
        cat[k].imagePath == kept[k].0 && kept[k].1 in fs &&
        ParseLabelFile(fs[kept[k].1]) == Ok(cat[k].labels)
  {
    if pairs != [] {
      var init := pairs[..|pairs| - 1];
      CatalogOfExistingPairs(init, fs);
    }
  }

  /** The pair's label file exists and does not parse. */
  predicate Unparsable(pair: (string, string), fs: FileSystem) {
    pair.1 in fs && ParseLabelFile(fs[pair.1]).Err?
  }

  /** The load fails exactly when some existing label file does not parse, and
      then it reports the first such file with its parse error. */
  lemma {:induction false} CatalogFailure(pairs: seq<(string, string)>, fs: FileSystem)
    ensures BuildCatalog(pairs, fs).Err? <==> exists k :: 0 <= k < |pairs| && Unparsable(pairs[k], fs)
    ensures BuildCatalog(pairs, fs).Err? ==>
      (exists k :: 0 <= k < |pairs| && Unparsable(pairs[k], fs) &&
        (forall j :: 0 <= j < k ==> !Unparsable(pairs[j], fs)) &&
        BuildCatalog(pairs, fs) == Err(CatalogError(pairs[k].1, ParseLabelFile(fs[pairs[k].1]).error)))
  {
    if pairs != [] {
      var init := pairs[..|pairs| - 1];
      CatalogFailure(init, fs);
      assert forall k :: 0 <= k < |init| ==> init[k] == pairs[k];
    }
  }

  /** The catalog never has more entries than the shorter of the two path lists. */
  lemma CatalogSize(imagePaths: seq<string>, labelPaths: seq<string>, fs: FileSystem)
    requires BuildCatalog(Zip(imagePaths, labelPaths), fs).Ok?
    ensures |BuildCatalog(Zip(imagePaths, labelPaths), fs).value| <= |imagePaths|
    ensures |BuildCatalog(Zip(imagePaths, labelPaths), fs).value| <= |labelPaths|
  {
    CatalogOfExistingPairs(Zip(imagePaths, labelPaths), fs);
  }

  /** Two pairs, the first label file missing: the catalog has one entry, for the second image. */
  lemma OneMissingLabelFile(first: (string, string), second: (string, string), fs: FileSystem)
    requires first.1 !in fs && second.1 in fs && ParseLabelFile(fs[second.1]).Ok?
    ensures BuildCatalog([first, second], fs) == Ok([SourceEntry(second.0, ParseLabelFile(fs[second.1]).value)])
  {
    var pairs := [first, second];
    assert pairs[..1] == [first] && [first][..0] == [];
    assert BuildCatalog([first], fs) == LoadStep(BuildCatalog([], fs), first, fs) == Ok([]);
    assert BuildCatalog(pairs, fs) == LoadStep(BuildCatalog([first], fs), second, fs);
    var entry := SourceEntry(second.0, ParseLabelFile(fs[second.1]).value);
    assert LoadStep(Ok([]), second, fs) == Ok([] + [entry]);
    assert [] + [entry] == [entry];
  }
}
