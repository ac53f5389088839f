/**
 * The `Dataset` class: it creates the six destination directories, splits the
 * `.jpg` names found in `<origin>/images` into `train`, `val` and `test`, and
 * then replaces each group's names by the samples built from them, group by
 * group. The first failure aborts the run; nothing already copied is undone.
 */
module Datasets {
  import opened Wrappers
  import opened Seqs
  import opened Text
  import opened FileSystem
  import opened Splitting
  import opened ImageLabels

  /** An entry of the `itens` table: a group's file names after the split, or its samples once they are built. */
  datatype Group = Filenames(names: seq<string>) | Samples(samples: seq<ImageLabel>)

  type Table = map<string, Group>

  /** The keys of `itens`, in the order they were inserted and are visited. */
  const GroupNames: seq<string> := ["train", "val", "test"]

  const InitialTable: Table := map["train" := Filenames([]), "val" := Filenames([]), "test" := Filenames([])]

  /** `Dataset.paths`, in its order. */
  const DatasetDirs: seq<Path> := [
    ["dataset", "images", "train"],
    ["dataset", "images", "test"],
    ["dataset", "images", "val"],
    ["dataset", "labels", "train"],
    ["dataset", "labels", "test"],
    ["dataset", "labels", "val"]
  ]

  // ------------------------------------------------------ create_directories

  /** Creating the directories `ps` one after the other; the first failure stops the rest. */
  function MakeAll(fs: Fs, ps: seq<Path>): Effect<()>
    decreases |ps|
  {
    if ps == [] then Effect(Ok(()), fs)
    else
      var before := MakeAll(fs, ps[..|ps| - 1]);
      if before.result.Err? then before
      else match MakeDirs(before.fs, ps[|ps| - 1])
        case Err(e) => Effect(Err(OsFailure(e)), before.fs)
        case Ok(after) => Effect(Ok(()), after)
  }

  /**
   * Creating directories never touches a file and never removes a directory; it
   * succeeds exactly when no file stands in the way of any of them, and then each
   * of them and its ancestors is a directory and no other directory was added.
   */
  lemma {:induction false} MakeAllEffect(fs: Fs, ps: seq<Path>)
    ensures MakeAll(fs, ps).fs.files == fs.files
    ensures fs.dirs <= MakeAll(fs, ps).fs.dirs
    ensures MakeAll(fs, ps).result.Ok? <==> forall i | 0 <= i < |ps| :: NoFileOnPath(fs, ps[i])
    ensures MakeAll(fs, ps).result.Ok? ==> forall i | 0 <= i < |ps| :: Ancestry(ps[i]) <= MakeAll(fs, ps).fs.dirs
    ensures forall d | d in MakeAll(fs, ps).fs.dirs - fs.dirs :: exists i | 0 <= i < |ps| :: d in Ancestry(ps[i])
    decreases |ps|
  {
    if ps != [] {
      var init := ps[..|ps| - 1];
      MakeAllEffect(fs, init);
      var before := MakeAll(fs, init);
      var after := MakeAll(fs, ps).fs;
      if before.result.Ok? {
        MakeDirsEffect(before.fs, ps[|ps| - 1]);
      }
      forall d | d in after.dirs - fs.dirs ensures exists i | 0 <= i < |ps| :: d in Ancestry(ps[i]) {
        if d in before.fs.dirs {
          assert d in before.fs.dirs - fs.dirs;
          var i :| 0 <= i < |init| && d in Ancestry(init[i]);
          assert init[i] == ps[i];
        } else {
          assert d in Ancestry(ps[|ps| - 1]);
        }
      }
    }
  }

  /** Where all the directories already exist, creating them again changes nothing. */
  lemma {:induction false} MakeAllWhenPresent(fs: Fs, ps: seq<Path>)
    requires forall i | 0 <= i < |ps| :: NoFileOnPath(fs, ps[i]) && Ancestry(ps[i]) <= fs.dirs
    ensures MakeAll(fs, ps) == Effect(Ok(()), fs)
    decreases |ps|
  {
    if ps != [] {
      MakeAllWhenPresent(fs, ps[..|ps| - 1]);
      MakeDirsWhenPresent(fs, ps[|ps| - 1]);
    }
  }

  /** `create_directories` is idempotent: after one successful run a second one changes nothing. */
  lemma MakeAllIdempotent(fs: Fs, ps: seq<Path>)
    requires MakeAll(fs, ps).result.Ok?
    ensures MakeAll(MakeAll(fs, ps).fs, ps) == Effect(Ok(()), MakeAll(fs, ps).fs)
  {
    MakeAllEffect(fs, ps);
    MakeAllWhenPresent(MakeAll(fs, ps).fs, ps);
  }

  /** After a successful `create_directories` all six destination directories exist. */
  lemma BootstrapMakesSixDirs(fs: Fs)
    requires MakeAll(fs, DatasetDirs).result.Ok?
    ensures forall g | g in GroupNames ::
      IsDir(MakeAll(fs, DatasetDirs).fs, ["dataset", "images", g]) &&
      IsDir(MakeAll(fs, DatasetDirs).fs, ["dataset", "labels", g])
  {
    MakeAllEffect(fs, DatasetDirs);
    var after := MakeAll(fs, DatasetDirs).fs;
    forall i | 0 <= i < |DatasetDirs| ensures IsDir(after, DatasetDirs[i]) {
      assert DatasetDirs[i][..|DatasetDirs[i]|] == DatasetDirs[i];
      assert DatasetDirs[i] in Ancestry(DatasetDirs[i]);
    }
    assert IsDir(after, DatasetDirs[0]) && IsDir(after, DatasetDirs[1]) && IsDir(after, DatasetDirs[2]);
    assert IsDir(after, DatasetDirs[3]) && IsDir(after, DatasetDirs[4]) && IsDir(after, DatasetDirs[5]);
  }

  // -------------------------------------------------------------- split_base

  /** `[i for i in listing if i.endswith('.jpg')]`. */
  function JpgNames(listing: seq<string>): seq<string>
  {
    if listing == [] then []
    else (if EndsWith(listing[0], JpgSuffix) then [listing[0]] else []) + JpgNames(listing[1..])
  }

  /** A listing of ".jpg" names only is kept whole, in its order. */
  lemma {:induction false} JpgNamesKeepsJpgs(listing: seq<string>)
    requires forall i | 0 <= i < |listing| :: EndsWith(listing[i], JpgSuffix)
    ensures JpgNames(listing) == listing
  {
    if listing != [] {
      assert forall i | 0 <= i < |listing[1..]| :: listing[1..][i] == listing[i + 1];
      JpgNamesKeepsJpgs(listing[1..]);
      assert listing == [listing[0]] + listing[1..];
    }
  }

  /** The filter keeps every name ending in ".jpg" as often as it is listed, and nothing else. */
  lemma {:induction false} JpgNamesCounts(listing: seq<string>, x: string)
    ensures multiset(JpgNames(listing))[x] == if EndsWith(x, JpgSuffix) then multiset(listing)[x] else 0
  {
    if listing != [] {
      JpgNamesCounts(listing[1..], x);
      assert listing == [listing[0]] + listing[1..];
    }
  }

  /** Filtering a listing without repetitions gives a list without repetitions. */
  lemma JpgNamesDistinct(listing: seq<string>)
    requires Distinct(listing)
    ensures Distinct(JpgNames(listing))
  {
    forall x ensures multiset(JpgNames(listing))[x] <= 1 {
      JpgNamesCounts(listing, x);
      DistinctCountsAtMostOne(listing, x);
    }
    CountsAtMostOneDistinct(JpgNames(listing));
  }

  /** What `split_base` leaves in the table, and whether it raised. */
  datatype SplitOutcome = SplitOutcome(result: Result<(), Error>, table: Table)

  /**
   * The two-stage split of `split_base`: test apart from train+val, then val apart
   * from train. A failing second split leaves the test group already assigned.
   */
  function SplitTable(table: Table, images: seq<string>, split: Splitter): SplitOutcome
  {
    match split(images, TestFraction)
    case None => SplitOutcome(Err(SplitInfeasible(|images|, TestFraction)), table)
    case Some(first) =>
      var withTest := table["test" := Filenames(first.test)];
      match split(first.train, ValFraction)
      case None => SplitOutcome(Err(SplitInfeasible(|first.train|, ValFraction)), withTest)
      case Some(second) =>
        SplitOutcome(Ok(()), withTest["train" := Filenames(second.train)]["val" := Filenames(second.test)])
  }

  /** Whatever the primitive does, the table keeps exactly the three groups, each a list of names. */
  lemma SplitTableShape(images: seq<string>, split: Splitter)
    ensures var t := SplitTable(InitialTable, images, split).table;
      && t.Keys == {"train", "val", "test"}
      && forall g | g in GroupNames :: g in t && t[g].Filenames?
  {
  }

  /** Given a partitioning primitive, the three groups together hold the filtered names, each as often. */
  lemma SplitPartition(table: Table, images: seq<string>, split: Splitter)
    requires Partitions(split)
    requires SplitTable(table, images, split).result.Ok?
    ensures var t := SplitTable(table, images, split).table;
      && t.Keys == table.Keys + {"train", "val", "test"}
      && t["train"].Filenames? && t["val"].Filenames? && t["test"].Filenames?
      && multiset(t["train"].names) + multiset(t["val"].names) + multiset(t["test"].names) == multiset(images)
      && |t["train"].names| + |t["val"].names| + |t["test"].names| == |images|
  {
    var t := SplitTable(table, images, split).table;
    var sum := multiset(t["train"].names) + multiset(t["val"].names) + multiset(t["test"].names);
    assert |sum| == |multiset(images)|;
  }

  /** Given a partitioning primitive, every name of every group is one of the filtered names. */
  lemma SplitMembers(images: seq<string>, split: Splitter)
    requires Partitions(split)
    requires SplitTable(InitialTable, images, split).result.Ok?
    ensures var t := SplitTable(InitialTable, images, split).table;
      forall g, i | g in GroupNames && 0 <= i < |t[g].names| :: t[g].names[i] in images
  {
    SplitPartition(InitialTable, images, split);
    var t := SplitTable(InitialTable, images, split).table;
    forall g, i | g in GroupNames && 0 <= i < |t[g].names| ensures t[g].names[i] in images {
      assert t[g].names[i] in multiset(t[g].names);
      assert t[g].names[i] in multiset(images);
    }
  }

  /** Split from names without repetitions, the three groups are pairwise disjoint. */
  lemma SplitDisjoint(table: Table, images: seq<string>, split: Splitter)
    requires Partitions(split)
    requires Distinct(images)
    requires SplitTable(table, images, split).result.Ok?
    ensures var t := SplitTable(table, images, split).table;
      && (forall x | x in t["train"].names :: x !in t["val"].names && x !in t["test"].names)
      && (forall x | x in t["val"].names :: x !in t["test"].names)
  {
    SplitPartition(table, images, split);
    var t := SplitTable(table, images, split).table;
    forall x | x in t["train"].names || x in t["val"].names
      ensures x in t["train"].names ==> x !in t["val"].names && x !in t["test"].names
      ensures x in t["val"].names ==> x !in t["test"].names
    {
      DistinctCountsAtMostOne(images, x);
    }
  }

  /** (n + 4) / 5 < n exactly when n >= 2, and then what is left is at least 2 exactly when n >= 3. */
  lemma SplitArithmetic(n: nat)
    ensures TestCount(n, TestFraction) == (n + 4) / 5
    ensures TestCount(n, TestFraction) < n <==> n >= 2
    ensures n >= 2 ==> (n - TestCount(n, TestFraction) >= 2 <==> n >= 3)
    ensures forall m: nat :: TestCount(m, ValFraction) == (m + 3) / 4 && (TestCount(m, ValFraction) < m <==> m >= 2)
  {
  }

  /**
   * Given a primitive that partitions and follows the sizing rule, the two-stage
   * split succeeds exactly when there are at least three names, and then every
   * group is non-empty: test has ceil(n / 5) names, val ceil(m / 4) of the m left.
   */
  lemma SplitSizeRule(table: Table, images: seq<string>, split: Splitter)
    requires Partitions(split) && FollowsSizeRule(split)
    ensures SplitTable(table, images, split).result.Ok? <==> |images| >= 3
    ensures SplitTable(table, images, split).result.Ok? ==>
      var t := SplitTable(table, images, split).table;
      var n := |images|;
      var m := n - (n + 4) / 5;
      && |t["test"].names| == (n + 4) / 5 > 0
      && |t["val"].names| == (m + 3) / 4 > 0
      && |t["train"].names| == m - (m + 3) / 4 > 0
  {
    SplitArithmetic(|images|);
    var n := |images|;
    if split(images, TestFraction).Some? {
      var first := split(images, TestFraction).value;
      SplitSizes(split, images, TestFraction);
      SplitArithmetic(|first.train|);
      if split(first.train, ValFraction).Some? {
        SplitSizes(split, first.train, ValFraction);
      }
    }
  }

  /** The five-pair fixture of the tests ends up as three train, one val and one test name. */
  lemma FiveSampleSplit(table: Table, images: seq<string>, split: Splitter)
    requires Partitions(split) && FollowsSizeRule(split)
    requires |images| == 5
    ensures SplitTable(table, images, split).result.Ok?
    ensures var t := SplitTable(table, images, split).table;
      |t["train"].names| == 3 && |t["val"].names| == 1 && |t["test"].names| == 1
  {
    SplitSizeRule(table, images, split);
  }

  // ------------------------------------------------------- set_dataset_items

  /** `[ImageLabel(filetype, filename, origin) for filename in names]`: in order, stopping at the first failure. */
  function MaterialiseAll(fs: Fs, filetype: string, names: seq<string>, origin: Path): Effect<seq<ImageLabel>>
    decreases |names|
  {
    if names == [] then Effect(Ok([]), fs)
    else
      var before := MaterialiseAll(fs, filetype, names[..|names| - 1], origin);
      if before.result.Err? then before
      else
        var m := Materialise(before.fs, filetype, names[|names| - 1], origin);
        if m.result.Err? then Effect(Err(m.result.error), m.fs)
        else Effect(Ok(before.result.value + [m.result.value]), m.fs)
  }

  /** The samples a group's names describe, one per name and in the same order. */
  function DescribeAll(filetype: string, names: seq<string>, origin: Path): seq<ImageLabel>
  {
    seq(|names|, i requires 0 <= i < |names| => Describe(filetype, names[i], origin))
  }

  /** `set_dataset_items(filetype)`: the group's names are replaced by its samples once all are built. */
  function SetItems(fs: Fs, table: Table, filetype: string, origin: Path): Effect<Table>
    requires filetype in table && table[filetype].Filenames?
  {
    var e := MaterialiseAll(fs, filetype, table[filetype].names, origin);
    if e.result.Err? then Effect(Err(e.result.error), e.fs)
    else Effect(Ok(table[filetype := Samples(e.result.value)]), e.fs)
  }

  /** The loop of `__init__` over the keys of `itens`: each group in turn, stopping at the first failure. */
  function MaterialiseGroups(fs: Fs, table: Table, filetypes: seq<string>, origin: Path): (e: Effect<Table>)
    requires Distinct(filetypes)
    requires forall g | g in filetypes :: g in table && table[g].Filenames?
    ensures e.result.Ok? ==> e.result.value.Keys == table.Keys
    ensures e.result.Ok? ==> forall g | g in table && g !in filetypes :: e.result.value[g] == table[g]
    decreases |filetypes|
  {
    if filetypes == [] then Effect(Ok(table), fs)
    else
      var last := filetypes[|filetypes| - 1];
      var init := filetypes[..|filetypes| - 1];
      assert last !in init;
      var before := MaterialiseGroups(fs, table, init, origin);
      if before.result.Err? then before
      else SetItems(before.fs, before.result.value, last, origin)
  }

  /** Building a sample never removes a file and never changes a directory, whether or not it succeeds. */
  lemma MaterialiseGrows(fs: Fs, filetype: string, filename: string, origin: Path)
    ensures Materialise(fs, filetype, filename, origin).fs.dirs == fs.dirs
    ensures fs.files.Keys <= Materialise(fs, filetype, filename, origin).fs.files.Keys
  {
    var sample := Describe(filetype, filename, origin);
    var first := Copy(fs, sample.imagePath, ImageDest(filetype, filename));
    if first.Ok? {
      CopyFrame(fs, sample.imagePath, ImageDest(filetype, filename));
      var second := Copy(first.value, sample.labelPath, LabelDest(filetype, LabelName(filename)));
      if second.Ok? {
        CopyFrame(first.value, sample.labelPath, LabelDest(filetype, LabelName(filename)));
      }
    }
  }

  /** Building a group never removes a file and never changes a directory, whether or not it succeeds. */
  lemma {:induction false} MaterialiseAllGrows(fs: Fs, filetype: string, names: seq<string>, origin: Path)
    ensures MaterialiseAll(fs, filetype, names, origin).fs.dirs == fs.dirs
    ensures fs.files.Keys <= MaterialiseAll(fs, filetype, names, origin).fs.files.Keys
    decreases |names|
  {
    if names != [] {
      var before := MaterialiseAll(fs, filetype, names[..|names| - 1], origin);
      MaterialiseAllGrows(fs, filetype, names[..|names| - 1], origin);
      MaterialiseGrows(before.fs, filetype, names[|names| - 1], origin);
    }
  }

  /** A sample that was built carries the fields its name describes. */
  lemma MaterialiseSample(fs: Fs, filetype: string, filename: string, origin: Path)
    requires Materialise(fs, filetype, filename, origin).result.Ok?
    ensures Materialise(fs, filetype, filename, origin).result.value == Describe(filetype, filename, origin)
  {
  }

  lemma DescribeAllSnoc(filetype: string, names: seq<string>, origin: Path)
    requires names != []
    ensures DescribeAll(filetype, names, origin) ==
      DescribeAll(filetype, names[..|names| - 1], origin) + [Describe(filetype, names[|names| - 1], origin)]
  {
  }

  /** A built group has one sample per name, in the order of the names, each the sample of its name. */
  lemma {:induction false} MaterialiseAllRecords(fs: Fs, filetype: string, names: seq<string>, origin: Path)
    requires MaterialiseAll(fs, filetype, names, origin).result.Ok?
    ensures MaterialiseAll(fs, filetype, names, origin).result.value == DescribeAll(filetype, names, origin)
    decreases |names|
  {
    if names != [] {
      var init := names[..|names| - 1];
      var before := MaterialiseAll(fs, filetype, init, origin);
      MaterialiseAllRecords(fs, filetype, init, origin);
      MaterialiseSample(before.fs, filetype, names[|names| - 1], origin);
      DescribeAllSnoc(filetype, names, origin);
    }
  }

  /** What exists stays existing while samples are built. */
  lemma ExistsPersists(fs: Fs, after: Fs, p: Path)
    requires Exists(fs, p)
    requires after.dirs == fs.dirs && fs.files.Keys <= after.files.Keys
    ensures Exists(after, p)
  {
  }

  /** After a built group both destinations of each of its names exist. */
  lemma {:induction false} MaterialiseAllDestinations(fs: Fs, filetype: string, names: seq<string>, origin: Path)
    requires MaterialiseAll(fs, filetype, names, origin).result.Ok?
    ensures var after := MaterialiseAll(fs, filetype, names, origin).fs;
      forall i | 0 <= i < |names| ::
        Exists(after, ImageDest(filetype, names[i])) && Exists(after, LabelDest(filetype, LabelName(names[i])))
    decreases |names|
  {
    if names != [] {
      var init := names[..|names| - 1];
      var before := MaterialiseAll(fs, filetype, init, origin);
      var after := MaterialiseAll(fs, filetype, names, origin).fs;
      MaterialiseAllDestinations(fs, filetype, init, origin);
      MaterialiseSuccess(before.fs, filetype, names[|names| - 1], origin);
      forall i | 0 <= i < |names| - 1
        ensures Exists(after, ImageDest(filetype, names[i])) && Exists(after, LabelDest(filetype, LabelName(names[i])))
      {
        assert names[i] == init[i];
        ExistsPersists(before.fs, after, ImageDest(filetype, names[i]));
        ExistsPersists(before.fs, after, LabelDest(filetype, LabelName(names[i])));
      }
    }
  }

  /** The run over `names` stops at index `k`: all names before it were built and it failed there. */
  ghost predicate AbortsAt(fs: Fs, filetype: string, names: seq<string>, origin: Path, k: nat)
  {
    && k < |names|
    && MaterialiseAll(fs, filetype, names, origin).result.Err?
    && var done := MaterialiseAll(fs, filetype, names[..k], origin);
    && done.result.Ok?
    && Materialise(done.fs, filetype, names[k], origin) == Effect(Err(MaterialiseAll(fs, filetype, names, origin).result.error), MaterialiseAll(fs, filetype, names, origin).fs)
  }

  lemma {:induction false} MaterialiseAllAbortPoint(fs: Fs, filetype: string, names: seq<string>, origin: Path)
    returns (k: nat)
    requires MaterialiseAll(fs, filetype, names, origin).result.Err?
    ensures AbortsAt(fs, filetype, names, origin, k)
    decreases |names|
  {
    var init := names[..|names| - 1];
    var before := MaterialiseAll(fs, filetype, init, origin);
    if before.result.Err? {
      k := MaterialiseAllAbortPoint(fs, filetype, init, origin);
      assert init[..k] == names[..k] && init[k] == names[k];
    } else {
      k := |names| - 1;
      assert names[..k] == init;
    }
  }

  /**
   * A failing group stops at its first failing name: the names before it were
   * all built, their copies are still in place, and the run ends with that name's
   * error and the file system that name left behind.
   */
  lemma MaterialiseAllAborts(fs: Fs, filetype: string, names: seq<string>, origin: Path)
    requires MaterialiseAll(fs, filetype, names, origin).result.Err?
    ensures var e := MaterialiseAll(fs, filetype, names, origin);
      exists k | 0 <= k < |names| ::
        && AbortsAt(fs, filetype, names, origin, k)
        && forall i | 0 <= i < k ::
             Exists(e.fs, ImageDest(filetype, names[i])) && Exists(e.fs, LabelDest(filetype, LabelName(names[i])))
  {
    var e := MaterialiseAll(fs, filetype, names, origin);
    var k := MaterialiseAllAbortPoint(fs, filetype, names, origin);
    var done := MaterialiseAll(fs, filetype, names[..k], origin);
    MaterialiseAllDestinations(fs, filetype, names[..k], origin);
    MaterialiseGrows(done.fs, filetype, names[k], origin);
    forall i | 0 <= i < k
      ensures Exists(e.fs, ImageDest(filetype, names[i])) && Exists(e.fs, LabelDest(filetype, LabelName(names[i])))
    {
      assert names[..k][i] == names[i];
      ExistsPersists(done.fs, e.fs, ImageDest(filetype, names[i]));
      ExistsPersists(done.fs, e.fs, LabelDest(filetype, LabelName(names[i])));
    }
  }

  /**
   * The run over the groups `filetypes` stops at group `j`, sample `k`: the
   * groups before `j` were all built and their copies are still in place, and
   * group `j` stops at sample `k` as `AbortsAt` says, the samples before it
   * copied, ending the run with that sample's error and file system.
   */
  ghost predicate GroupsAbortAt(fs: Fs, table: Table, filetypes: seq<string>, origin: Path, j: nat, k: nat)
    requires Distinct(filetypes)
    requires forall g | g in filetypes :: g in table && table[g].Filenames?
  {
    var e := MaterialiseGroups(fs, table, filetypes, origin);
    && j < |filetypes|
    && e.result.Err?
    && Distinct(filetypes[..j])
    && (forall g | g in filetypes[..j] :: g in filetypes)
    && var done := MaterialiseGroups(fs, table, filetypes[..j], origin);
    && var g := filetypes[j];
    && var names := table[g].names;
    && done.result.Ok?
    && g in done.result.value && done.result.value[g] == table[g]
    && AbortsAt(done.fs, g, names, origin, k)
    && MaterialiseAll(done.fs, g, names, origin).fs == e.fs
    && MaterialiseAll(done.fs, g, names, origin).result.error == e.result.error
    && (forall h, i | h in filetypes[..j] && 0 <= i < |table[h].names| ::
          Exists(e.fs, ImageDest(h, table[h].names[i])) && Exists(e.fs, LabelDest(h, LabelName(table[h].names[i]))))
    && (forall i | 0 <= i < k :: Exists(e.fs, ImageDest(g, names[i])) && Exists(e.fs, LabelDest(g, LabelName(names[i]))))
  }

  /** A failing run over the groups stops at a first failing group and sample, with everything before them in place. */
  lemma {:induction false} MaterialiseGroupsAborts(fs: Fs, table: Table, filetypes: seq<string>, origin: Path)
    returns (j: nat, k: nat)
    requires Distinct(filetypes)
    requires forall g | g in filetypes :: g in table && table[g].Filenames?
    requires MaterialiseGroups(fs, table, filetypes, origin).result.Err?
    ensures GroupsAbortAt(fs, table, filetypes, origin, j, k)
    decreases |filetypes|
  {
    var last := filetypes[|filetypes| - 1];
    var init := filetypes[..|filetypes| - 1];
    assert Distinct(init);
    var before := MaterialiseGroups(fs, table, init, origin);
    if before.result.Err? {
      j, k := MaterialiseGroupsAborts(fs, table, init, origin);
      assert init[..j] == filetypes[..j] && init[j] == filetypes[j];
    } else {
      j := |filetypes| - 1;
      assert filetypes[..j] == init;
      assert last !in init;
      var names := table[last].names;
      var e := MaterialiseGroups(fs, table, filetypes, origin);
      var m := MaterialiseAll(before.fs, last, names, origin);
      assert e.fs == m.fs && e.result.error == m.result.error;
      MaterialiseAllAborts(before.fs, last, names, origin);
      k :| 0 <= k < |names| && AbortsAt(before.fs, last, names, origin, k) &&
        forall i | 0 <= i < k :: Exists(m.fs, ImageDest(last, names[i])) && Exists(m.fs, LabelDest(last, LabelName(names[i])));
      MaterialiseGroupsDestinations(fs, table, init, origin);
      MaterialiseAllGrows(before.fs, last, names, origin);
      forall h, i | h in init && 0 <= i < |table[h].names|
        ensures Exists(e.fs, ImageDest(h, table[h].names[i])) && Exists(e.fs, LabelDest(h, LabelName(table[h].names[i])))
      {
        ExistsPersists(before.fs, e.fs, ImageDest(h, table[h].names[i]));
        ExistsPersists(before.fs, e.fs, LabelDest(h, LabelName(table[h].names[i])));
      }
    }
  }

  /** A sample's sources are regular files and neither of its destinations is a directory. */
  ghost predicate Buildable(fs: Fs, filetype: string, filename: string, origin: Path)
  {
    && origin + ["images", filename] in fs.files
    && origin + ["labels", LabelName(filename)] in fs.files
    && !IsDir(fs, ImageDest(filetype, filename))
    && !IsDir(fs, LabelDest(filetype, LabelName(filename)))
  }

  /** A group's two destination directories exist and its name cannot be mistaken for a source directory. */
  ghost predicate GroupReady(fs: Fs, filetype: string)
  {
    && filetype != "images" && filetype != "labels"
    && IsDir(fs, ["dataset", "images", filetype])
    && IsDir(fs, ["dataset", "labels", filetype])
  }

  /** A group whose samples are all buildable is built. */
  lemma {:induction false} MaterialiseAllSucceeds(fs: Fs, filetype: string, names: seq<string>, origin: Path)
    requires GroupReady(fs, filetype)
    requires forall i | 0 <= i < |names| :: Buildable(fs, filetype, names[i], origin)
    ensures MaterialiseAll(fs, filetype, names, origin).result.Ok?
    decreases |names|
  {
    if names != [] {
      var init := names[..|names| - 1];
      assert forall i | 0 <= i < |init| :: init[i] == names[i];
      MaterialiseAllSucceeds(fs, filetype, init, origin);
      MaterialiseAllGrows(fs, filetype, init, origin);
      var before := MaterialiseAll(fs, filetype, init, origin);
      assert Buildable(before.fs, filetype, names[|names| - 1], origin);
      MaterialiseSucceeds(before.fs, filetype, names[|names| - 1], origin);
    }
  }

  /** Building groups never removes a file and never changes a directory, whether or not it succeeds. */
  lemma {:induction false} MaterialiseGroupsGrows(fs: Fs, table: Table, filetypes: seq<string>, origin: Path)
    requires Distinct(filetypes)
    requires forall g | g in filetypes :: g in table && table[g].Filenames?
    ensures MaterialiseGroups(fs, table, filetypes, origin).fs.dirs == fs.dirs
    ensures fs.files.Keys <= MaterialiseGroups(fs, table, filetypes, origin).fs.files.Keys
    decreases |filetypes|
  {
    if filetypes != [] {
      var last := filetypes[|filetypes| - 1];
      var init := filetypes[..|filetypes| - 1];
      MaterialiseGroupsGrows(fs, table, init, origin);
      var before := MaterialiseGroups(fs, table, init, origin);
      if before.result.Ok? {
        MaterialiseAllGrows(before.fs, last, before.result.value[last].names, origin);
      }
    }
  }

  /** Each built group holds exactly the samples of its names, in their order. */
  lemma {:induction false} MaterialiseGroupsTable(fs: Fs, table: Table, filetypes: seq<string>, origin: Path)
    requires Distinct(filetypes)
    requires forall g | g in filetypes :: g in table && table[g].Filenames?
    requires MaterialiseGroups(fs, table, filetypes, origin).result.Ok?
    ensures forall g | g in filetypes ::
      MaterialiseGroups(fs, table, filetypes, origin).result.value[g] == Samples(DescribeAll(g, table[g].names, origin))
    decreases |filetypes|
  {
    if filetypes != [] {
      var last := filetypes[|filetypes| - 1];
      var init := filetypes[..|filetypes| - 1];
      MaterialiseGroupsTable(fs, table, init, origin);
      var before := MaterialiseGroups(fs, table, init, origin);
      MaterialiseAllRecords(before.fs, last, table[last].names, origin);
    }
  }

  /** After the groups are built both destinations of every name of every group exist. */
  lemma {:induction false} MaterialiseGroupsDestinations(fs: Fs, table: Table, filetypes: seq<string>, origin: Path)
    requires Distinct(filetypes)
    requires forall g | g in filetypes :: g in table && table[g].Filenames?
    requires MaterialiseGroups(fs, table, filetypes, origin).result.Ok?
    ensures var after := MaterialiseGroups(fs, table, filetypes, origin).fs;
      forall g, i | g in filetypes && 0 <= i < |table[g].names| ::
        Exists(after, ImageDest(g, table[g].names[i])) && Exists(after, LabelDest(g, LabelName(table[g].names[i])))
    decreases |filetypes|
  {
    if filetypes != [] {
      var last := filetypes[|filetypes| - 1];
      var init := filetypes[..|filetypes| - 1];
      var before := MaterialiseGroups(fs, table, init, origin);
      var after := MaterialiseGroups(fs, table, filetypes, origin).fs;
      MaterialiseGroupsDestinations(fs, table, init, origin);
      MaterialiseAllDestinations(before.fs, last, table[last].names, origin);
      MaterialiseAllGrows(before.fs, last, table[last].names, origin);
      forall g, i | g in init && 0 <= i < |table[g].names|
        ensures Exists(after, ImageDest(g, table[g].names[i])) && Exists(after, LabelDest(g, LabelName(table[g].names[i])))
      {
        ExistsPersists(before.fs, after, ImageDest(g, table[g].names[i]));
        ExistsPersists(before.fs, after, LabelDest(g, LabelName(table[g].names[i])));
      }
    }
  }

  /** Groups that are ready, with only buildable names, are all built. */
  lemma {:induction false} MaterialiseGroupsSucceeds(fs: Fs, table: Table, filetypes: seq<string>, origin: Path)
    requires Distinct(filetypes)
    requires forall g | g in filetypes :: g in table && table[g].Filenames?
    requires forall g | g in filetypes :: GroupReady(fs, g)
    requires forall g, i | g in filetypes && 0 <= i < |table[g].names| :: Buildable(fs, g, table[g].names[i], origin)
    ensures MaterialiseGroups(fs, table, filetypes, origin).result.Ok?
    decreases |filetypes|
  {
    if filetypes != [] {
      var last := filetypes[|filetypes| - 1];
      var init := filetypes[..|filetypes| - 1];
      MaterialiseGroupsSucceeds(fs, table, init, origin);
      MaterialiseGroupsGrows(fs, table, init, origin);
      var before := MaterialiseGroups(fs, table, init, origin);
      var names := table[last].names;
      assert before.result.value[last] == table[last];
      assert GroupReady(fs, last);
      assert GroupReady(before.fs, last);
      forall i | 0 <= i < |names| ensures Buildable(before.fs, last, names[i], origin) {
        assert Buildable(fs, last, names[i], origin);
      }
      MaterialiseAllSucceeds(before.fs, last, names, origin);
    }
  }

  // ------------------------------------------------------------------ __init__

  /** A table as a built dataset holds it: the three groups, each as samples. */
  ghost predicate Built(t: Table)
  {
    && t.Keys == {"train", "val", "test"}
    && forall g | g in t :: t[g].Samples?
  }

  /** After the images are listed: split the ".jpg" names, then build the groups in the order train, val, test. */
  function Populate(fs: Fs, origin: Path, images: seq<string>, split: Splitter): Effect<Table>
  {
    var sp := SplitTable(InitialTable, images, split);
    if sp.result.Err? then Effect(Err(sp.result.error), fs)
    else
      SplitTableShape(images, split);
      MaterialiseGroups(fs, sp.table, GroupNames, origin)
  }

  /**
   * `Dataset(files_path)` after its table is set up: the directories are created,
   * `<origin>/images` is listed (in the order `listing`), and its ".jpg" names are
   * split and built. The first failure ends the run with the file system as far
   * as it got.
   */
  function Construct(fs: Fs, origin: Path, listing: seq<string>, split: Splitter): Effect<Table>
  {
    var boot := MakeAll(fs, DatasetDirs);
    if boot.result.Err? then Effect(Err(boot.result.error), boot.fs)
    else match ListDirError(boot.fs, origin + ["images"])
      case Some(e) => Effect(Err(OsFailure(e)), boot.fs)
      case None => Populate(boot.fs, origin, JpgNames(listing), split)
  }

  /** `listing` is an order in which `os.listdir` reports `<origin>/images` once the directories exist. */
  ghost predicate ListedImages(fs: Fs, origin: Path, listing: seq<string>)
  {
    var boot := MakeAll(fs, DatasetDirs);
    boot.result.Ok? && ListDirError(boot.fs, origin + ["images"]).None? ==>
      Enumerates(listing, Entries(boot.fs, origin + ["images"]))
  }

  /** A built dataset went through every stage: directories, listing, split, groups. */
  lemma ConstructStages(fs: Fs, origin: Path, listing: seq<string>, split: Splitter)
    requires Construct(fs, origin, listing, split).result.Ok?
    ensures MakeAll(fs, DatasetDirs).result.Ok?
    ensures ListDirError(MakeAll(fs, DatasetDirs).fs, origin + ["images"]).None?
    ensures Construct(fs, origin, listing, split) == Populate(MakeAll(fs, DatasetDirs).fs, origin, JpgNames(listing), split)
  {
  }

  /** The file names of a group's samples, in order. */
  function NamesOf(samples: seq<ImageLabel>): seq<string>
  {
    seq(|samples|, i requires 0 <= i < |samples| => samples[i].filename)
  }

  lemma NamesOfDescribeAll(filetype: string, names: seq<string>, origin: Path)
    ensures NamesOf(DescribeAll(filetype, names, origin)) == names
  {
  }

  /** Each built group holds the samples of the names the split gave it, one per name and in the same order. */
  lemma PopulateTable(fs: Fs, origin: Path, images: seq<string>, split: Splitter)
    requires Populate(fs, origin, images, split).result.Ok?
    ensures var t := Populate(fs, origin, images, split).result.value;
      var sp := SplitTable(InitialTable, images, split);
      && sp.result.Ok?
      && Built(t)
      && forall g | g in GroupNames :: sp.table[g].Filenames? && t[g] == Samples(DescribeAll(g, sp.table[g].names, origin))
  {
    var sp := SplitTable(InitialTable, images, split);
    SplitTableShape(images, split);
    var t := MaterialiseGroups(fs, sp.table, GroupNames, origin).result.value;
    MaterialiseGroupsTable(fs, sp.table, GroupNames, origin);
    assert t.Keys == sp.table.Keys;
    forall g | g in t ensures t[g].Samples? {
      assert g in GroupNames;
    }
  }

  /**
   * A dataset that was built has exactly the keys train, val and test, each group
   * holding samples; given a partitioning primitive, the samples are named by the
   * ".jpg" names of the listing, each as often as listed, and from a listing
   * without repetitions no name is in two groups.
   */
  lemma ConstructPartition(fs: Fs, origin: Path, listing: seq<string>, split: Splitter)
    requires Partitions(split)
    requires Construct(fs, origin, listing, split).result.Ok?
    ensures var t := Construct(fs, origin, listing, split).result.value;
      && Built(t)
      && var train, val, test := NamesOf(t["train"].samples), NamesOf(t["val"].samples), NamesOf(t["test"].samples);
      && multiset(train) + multiset(val) + multiset(test) == multiset(JpgNames(listing))
      && |train| + |val| + |test| == |JpgNames(listing)|
      && (Distinct(listing) ==>
            && (forall x | x in train :: x !in val && x !in test)
            && (forall x | x in val :: x !in test))
  {
    ConstructStages(fs, origin, listing, split);
    var images := JpgNames(listing);
    var boot := MakeAll(fs, DatasetDirs).fs;
    PopulateTable(boot, origin, images, split);
    var sp := SplitTable(InitialTable, images, split);
    var t := Construct(fs, origin, listing, split).result.value;
    NamesOfDescribeAll("train", sp.table["train"].names, origin);
    NamesOfDescribeAll("val", sp.table["val"].names, origin);
    NamesOfDescribeAll("test", sp.table["test"].names, origin);
    assert NamesOf(t["train"].samples) == sp.table["train"].names;
    assert NamesOf(t["val"].samples) == sp.table["val"].names;
    assert NamesOf(t["test"].samples) == sp.table["test"].names;
    SplitPartition(InitialTable, images, split);
    if Distinct(listing) {
      JpgNamesDistinct(listing);
      SplitDisjoint(InitialTable, images, split);
    }
  }

  /** Both destinations of every sample of every group of `t` exist in `fs`. */
  ghost predicate DestinationsExist(fs: Fs, t: Table)
  {
    forall g, s | g in GroupNames && g in t && t[g].Samples? && s in t[g].samples ::
      Exists(fs, ImageDest(g, s.imageFilename)) && Exists(fs, LabelDest(g, s.labelFilename))
  }

  /** After the groups are built both destinations of every sample of every group exist. */
  lemma PopulateDestinations(fs: Fs, origin: Path, images: seq<string>, split: Splitter)
    requires Populate(fs, origin, images, split).result.Ok?
    ensures var p := Populate(fs, origin, images, split);
      Built(p.result.value) && DestinationsExist(p.fs, p.result.value)
  {
    var p := Populate(fs, origin, images, split);
    var sp := SplitTable(InitialTable, images, split);
    PopulateTable(fs, origin, images, split);
    MaterialiseGroupsDestinations(fs, sp.table, GroupNames, origin);
    forall g, s | g in GroupNames && g in p.result.value && p.result.value[g].Samples? && s in p.result.value[g].samples
      ensures Exists(p.fs, ImageDest(g, s.imageFilename)) && Exists(p.fs, LabelDest(g, s.labelFilename))
    {
      var i :| 0 <= i < |p.result.value[g].samples| && p.result.value[g].samples[i] == s;
      assert s == Describe(g, sp.table[g].names[i], origin);
    }
  }

  /** After a dataset was built both destinations of every sample of every group exist. */
  lemma ConstructDestinations(fs: Fs, origin: Path, listing: seq<string>, split: Splitter)
    requires Construct(fs, origin, listing, split).result.Ok?
    ensures var c := Construct(fs, origin, listing, split);
      Built(c.result.value) && DestinationsExist(c.fs, c.result.value)
  {
    ConstructStages(fs, origin, listing, split);
    PopulateDestinations(MakeAll(fs, DatasetDirs).fs, origin, JpgNames(listing), split);
  }

  /** No rollback, whatever the outcome: no file is removed and no directory disappears. */
  lemma ConstructNoRollback(fs: Fs, origin: Path, listing: seq<string>, split: Splitter)
    ensures fs.files.Keys <= Construct(fs, origin, listing, split).fs.files.Keys
    ensures fs.dirs <= Construct(fs, origin, listing, split).fs.dirs
  {
    var boot := MakeAll(fs, DatasetDirs);
    MakeAllEffect(fs, DatasetDirs);
    var sp := SplitTable(InitialTable, JpgNames(listing), split);
    if boot.result.Ok? && ListDirError(boot.fs, origin + ["images"]).None? && sp.result.Ok? {
      MaterialiseGroupsGrows(boot.fs, sp.table, GroupNames, origin);
    }
  }

  /** Creating directories in turn keeps a file system one that can exist, whatever the outcome. */
  lemma {:induction false} MakeAllKeepsValid(fs: Fs, ps: seq<Path>)
    requires Valid(fs)
    ensures Valid(MakeAll(fs, ps).fs)
    decreases |ps|
  {
    if ps != [] {
      var before := MakeAll(fs, ps[..|ps| - 1]);
      MakeAllKeepsValid(fs, ps[..|ps| - 1]);
      if before.result.Ok? && MakeDirs(before.fs, ps[|ps| - 1]).Ok? {
        MakeDirsKeepsValid(before.fs, ps[|ps| - 1]);
      }
    }
  }

  /** Building a sample keeps a file system one that can exist, whatever the outcome. */
  lemma MaterialiseKeepsValid(fs: Fs, filetype: string, filename: string, origin: Path)
    requires Valid(fs)
    ensures Valid(Materialise(fs, filetype, filename, origin).fs)
  {
    var sample := Describe(filetype, filename, origin);
    var first := Copy(fs, sample.imagePath, ImageDest(filetype, filename));
    if first.Ok? {
      CopyKeepsValid(fs, sample.imagePath, ImageDest(filetype, filename));
      var second := Copy(first.value, sample.labelPath, LabelDest(filetype, LabelName(filename)));
      if second.Ok? {
        CopyKeepsValid(first.value, sample.labelPath, LabelDest(filetype, LabelName(filename)));
      }
    }
  }

  /** Building a group keeps a file system one that can exist, whatever the outcome. */
  lemma {:induction false} MaterialiseAllKeepsValid(fs: Fs, filetype: string, names: seq<string>, origin: Path)
    requires Valid(fs)
    ensures Valid(MaterialiseAll(fs, filetype, names, origin).fs)
    decreases |names|
  {
    if names != [] {
      var before := MaterialiseAll(fs, filetype, names[..|names| - 1], origin);
      MaterialiseAllKeepsValid(fs, filetype, names[..|names| - 1], origin);
      if before.result.Ok? {
        MaterialiseKeepsValid(before.fs, filetype, names[|names| - 1], origin);
      }
    }
  }

  /** Building the groups keeps a file system one that can exist, whatever the outcome. */
  lemma {:induction false} MaterialiseGroupsKeepsValid(fs: Fs, table: Table, filetypes: seq<string>, origin: Path)
    requires Valid(fs)
    requires Distinct(filetypes)
    requires forall g | g in filetypes :: g in table && table[g].Filenames?
    ensures Valid(MaterialiseGroups(fs, table, filetypes, origin).fs)
    decreases |filetypes|
  {
    if filetypes != [] {
      var last := filetypes[|filetypes| - 1];
      var init := filetypes[..|filetypes| - 1];
      MaterialiseGroupsKeepsValid(fs, table, init, origin);
      var before := MaterialiseGroups(fs, table, init, origin);
      if before.result.Ok? {
        MaterialiseAllKeepsValid(before.fs, last, before.result.value[last].names, origin);
      }
    }
  }

  /** `Dataset(files_path)` leaves a file system that can exist, however far it gets. */
  lemma ConstructKeepsValid(fs: Fs, origin: Path, listing: seq<string>, split: Splitter)
    requires Valid(fs)
    ensures Valid(Construct(fs, origin, listing, split).fs)
  {
    var boot := MakeAll(fs, DatasetDirs);
    MakeAllKeepsValid(fs, DatasetDirs);
    if boot.result.Ok? && ListDirError(boot.fs, origin + ["images"]).None? {
      var images := JpgNames(listing);
      var sp := SplitTable(InitialTable, images, split);
      if sp.result.Ok? {
        SplitTableShape(images, split);
        MaterialiseGroupsKeepsValid(boot.fs, sp.table, GroupNames, origin);
      }
    }
  }

  /** `Dataset(files_path)` on a regular file raises `NotADirectoryError` for `<files_path>/images`, having only created directories. */
  lemma ConstructOnFile(fs: Fs, origin: Path, listing: seq<string>, split: Splitter)
    requires Valid(fs)
    requires origin in fs.files
    requires forall i | 0 <= i < |DatasetDirs| :: NoFileOnPath(fs, DatasetDirs[i])
    ensures Construct(fs, origin, listing, split).result == Err(OsFailure(NotADirectory(origin + ["images"])))
    ensures Construct(fs, origin, listing, split).fs.files == fs.files
  {
    var boot := MakeAll(fs, DatasetDirs);
    MakeAllEffect(fs, DatasetDirs);
    MakeAllKeepsValid(fs, DatasetDirs);
    assert (origin + ["images"])[..|origin|] == origin;
    ListDirBelowFile(boot.fs, origin + ["images"], |origin|);
  }

  /**
   * Where a run that raises stops: a failure before the groups are built (the
   * directories, the listing or the split) has copied no file; a failure while
   * building them stops at group `j`, sample `k`, and leaves the copies of the
   * groups before it, train's and then val's, and of that group's earlier samples
   * in place.
   */
  lemma ConstructAborts(fs: Fs, origin: Path, listing: seq<string>, split: Splitter) returns (j: nat, k: nat)
    requires Construct(fs, origin, listing, split).result.Err?
    ensures var boot := MakeAll(fs, DatasetDirs);
      var listed := ListDirError(boot.fs, origin + ["images"]).None?;
      var sp := SplitTable(InitialTable, JpgNames(listing), split);
      var c := Construct(fs, origin, listing, split);
      && (boot.result.Err? || !listed || sp.result.Err? ==> c.fs.files == fs.files)
      && (boot.result.Ok? && listed && sp.result.Ok? ==>
            && (forall g | g in GroupNames :: g in sp.table && sp.table[g].Filenames?)
            && GroupsAbortAt(boot.fs, sp.table, GroupNames, origin, j, k)
            && c.fs == MaterialiseGroups(boot.fs, sp.table, GroupNames, origin).fs)
  {
    var boot := MakeAll(fs, DatasetDirs);
    var images := JpgNames(listing);
    var sp := SplitTable(InitialTable, images, split);
    MakeAllEffect(fs, DatasetDirs);
    j, k := 0, 0;
    if boot.result.Ok? && ListDirError(boot.fs, origin + ["images"]).None? && sp.result.Ok? {
      SplitTableShape(images, split);
      j, k := MaterialiseGroupsAborts(boot.fs, sp.table, GroupNames, origin);
    }
  }

  /**
   * With the three groups' directories ready, every image buildable, at least
   * three images and a primitive that partitions and follows the sizing rule,
   * every group is built and none is empty.
   */
  lemma PopulateSucceeds(fs: Fs, origin: Path, images: seq<string>, split: Splitter)
    requires Partitions(split) && FollowsSizeRule(split)
    requires forall g | g in GroupNames :: GroupReady(fs, g)
    requires forall g, x | g in GroupNames && x in images :: Buildable(fs, g, x, origin)
    requires |images| >= 3
    ensures Populate(fs, origin, images, split).result.Ok?
    ensures var t := Populate(fs, origin, images, split).result.value;
      && Built(t)
      && |t["train"].samples| > 0 && |t["val"].samples| > 0 && |t["test"].samples| > 0
  {
    var sp := SplitTable(InitialTable, images, split);
    SplitSizeRule(InitialTable, images, split);
    SplitMembers(images, split);
    SplitTableShape(images, split);
    MaterialiseGroupsSucceeds(fs, sp.table, GroupNames, origin);
    PopulateTable(fs, origin, images, split);
  }

  /** Nothing in the way of the destination tree, `<origin>/images` a directory, every listed image paired. */
  ghost predicate WellLaidOut(fs: Fs, origin: Path, listing: seq<string>)
  {
    && (forall i | 0 <= i < |DatasetDirs| :: NoFileOnPath(fs, DatasetDirs[i]))
    && IsDir(fs, origin + ["images"])
    && forall g, x | g in GroupNames && x in JpgNames(listing) :: Buildable(fs, g, x, origin)
  }

  /** Creating the directories keeps a sample buildable: only directories three deep are added. */
  lemma BootstrapKeepsBuildable(fs: Fs, filetype: string, filename: string, origin: Path)
    requires Buildable(fs, filetype, filename, origin)
    ensures Buildable(MakeAll(fs, DatasetDirs).fs, filetype, filename, origin)
  {
    MakeAllEffect(fs, DatasetDirs);
    var after := MakeAll(fs, DatasetDirs).fs;
    forall d | d in after.dirs - fs.dirs ensures |d| <= 3 {
      var i :| 0 <= i < |DatasetDirs| && d in Ancestry(DatasetDirs[i]);
    }
  }

  /**
   * On well-laid-out input with at least three ".jpg" names, and a primitive that
   * partitions and follows the sizing rule, the build succeeds and all three
   * groups are non-empty.
   */
  lemma ConstructSucceeds(fs: Fs, origin: Path, listing: seq<string>, split: Splitter)
    requires Partitions(split) && FollowsSizeRule(split)
    requires WellLaidOut(fs, origin, listing)
    requires |JpgNames(listing)| >= 3
    ensures Construct(fs, origin, listing, split).result.Ok?
    ensures var t := Construct(fs, origin, listing, split).result.value;
      && Built(t)
      && |t["train"].samples| > 0 && |t["val"].samples| > 0 && |t["test"].samples| > 0
  {
    var images := JpgNames(listing);
    MakeAllEffect(fs, DatasetDirs);
    BootstrapMakesSixDirs(fs);
    var boot := MakeAll(fs, DatasetDirs).fs;
    forall g, x | g in GroupNames && x in images ensures Buildable(boot, g, x, origin) {
      BootstrapKeepsBuildable(fs, g, x, origin);
    }
    PopulateSucceeds(boot, origin, images, split);
  }

  /**
   * Given a primitive that partitions and follows the sizing rule, a built
   * dataset of n ".jpg" names has ceil(n/5) test samples, and of the m = n -
   * ceil(n/5) others ceil(m/4) are for validation and the rest for training.
   */
  lemma ConstructSizeRule(fs: Fs, origin: Path, listing: seq<string>, split: Splitter)
    requires Partitions(split) && FollowsSizeRule(split)
    requires Construct(fs, origin, listing, split).result.Ok?
    ensures var t := Construct(fs, origin, listing, split).result.value;
      var n := |JpgNames(listing)|;
      var m := n - (n + 4) / 5;
      && Built(t)
      && n >= 3
      && |t["test"].samples| == (n + 4) / 5
      && |t["val"].samples| == (m + 3) / 4
      && |t["train"].samples| == m - (m + 3) / 4
  {
    ConstructStages(fs, origin, listing, split);
    var images := JpgNames(listing);
    PopulateTable(MakeAll(fs, DatasetDirs).fs, origin, images, split);
    SplitSizeRule(InitialTable, images, split);
  }

  /** Five paired images, as in the package's own scenario, give three training, one validation and one test sample. */
  lemma FiveSampleScenario(fs: Fs, origin: Path, listing: seq<string>, split: Splitter)
    requires Partitions(split) && FollowsSizeRule(split)
    requires WellLaidOut(fs, origin, listing)
    requires |JpgNames(listing)| == 5
    ensures Construct(fs, origin, listing, split).result.Ok?
    ensures var t := Construct(fs, origin, listing, split).result.value;
      && Built(t)
      && |t["train"].samples| == 3 && |t["val"].samples| == 1 && |t["test"].samples| == 1
  {
    ConstructSucceeds(fs, origin, listing, split);
    ConstructSizeRule(fs, origin, listing, split);
  }

  /** Building one more group after a prefix of them: `set_dataset_items` on the table the prefix left. */
  lemma MaterialiseGroupsStep(fs: Fs, table: Table, filetypes: seq<string>, origin: Path, i: nat)
    requires Distinct(filetypes)
    requires forall g | g in filetypes :: g in table && table[g].Filenames?
    requires i < |filetypes|
    ensures Distinct(filetypes[..i]) && Distinct(filetypes[..i + 1])
    ensures var before := MaterialiseGroups(fs, table, filetypes[..i], origin);
      before.result.Ok? ==>
        && filetypes[i] in before.result.value
        && before.result.value[filetypes[i]].Filenames?
        && MaterialiseGroups(fs, table, filetypes[..i + 1], origin) == SetItems(before.fs, before.result.value, filetypes[i], origin)
  {
    assert filetypes[..i + 1][..i] == filetypes[..i];
    assert filetypes[i] !in filetypes[..i];
  }

  /** Once creating a prefix of the directories fails, the rest is never attempted. */
  lemma {:induction false} MakeAllStops(fs: Fs, ps: seq<Path>, k: nat)
    requires k <= |ps|
    requires MakeAll(fs, ps[..k]).result.Err?
    ensures MakeAll(fs, ps) == MakeAll(fs, ps[..k])
    decreases |ps|
  {
    if k < |ps| {
      var init := ps[..|ps| - 1];
      assert init[..k] == ps[..k];
      MakeAllStops(fs, init, k);
    } else {
      assert ps[..k] == ps;
    }
  }

  /** Once building a prefix of a group fails, the rest of the group is never attempted. */
  lemma {:induction false} MaterialiseAllStops(fs: Fs, filetype: string, names: seq<string>, origin: Path, k: nat)
    requires k <= |names|
    requires MaterialiseAll(fs, filetype, names[..k], origin).result.Err?
    ensures MaterialiseAll(fs, filetype, names, origin) == MaterialiseAll(fs, filetype, names[..k], origin)
    decreases |names|
  {
    if k < |names| {
      var init := names[..|names| - 1];
      assert init[..k] == names[..k];
      MaterialiseAllStops(fs, filetype, init, origin, k);
    } else {
      assert names[..k] == names;
    }
  }

  /** Once building a prefix of the groups fails, the remaining groups are never attempted. */
  lemma {:induction false} MaterialiseGroupsStops(fs: Fs, table: Table, filetypes: seq<string>, origin: Path, k: nat)
    requires Distinct(filetypes)
    requires forall g | g in filetypes :: g in table && table[g].Filenames?
    requires k <= |filetypes|
    requires MaterialiseGroups(fs, table, filetypes[..k], origin).result.Err?
    ensures MaterialiseGroups(fs, table, filetypes, origin) == MaterialiseGroups(fs, table, filetypes[..k], origin)
    decreases |filetypes|
  {
    if k < |filetypes| {
      var init := filetypes[..|filetypes| - 1];
      assert init[..k] == filetypes[..k];
      MaterialiseGroupsStops(fs, table, init, origin, k);
    } else {
      assert filetypes[..k] == filetypes;
    }
  }

  /** How `Dataset(files_path)` ends, stage by stage. */
  lemma ConstructCases(fs: Fs, origin: Path, listing: seq<string>, split: Splitter)
    ensures var boot := MakeAll(fs, DatasetDirs);
      var dirError := ListDirError(boot.fs, origin + ["images"]);
      var sp := SplitTable(InitialTable, JpgNames(listing), split);
      var c := Construct(fs, origin, listing, split);
      && (boot.result.Err? ==> c == Effect(Err(boot.result.error), boot.fs))
      && (boot.result.Ok? && dirError.Some? ==> c == Effect(Err(OsFailure(dirError.value)), boot.fs))
      && (boot.result.Ok? && dirError.None? && sp.result.Err? ==> c == Effect(Err(sp.result.error), boot.fs))
      && (boot.result.Ok? && dirError.None? && sp.result.Ok? ==>
            && (forall g | g in GroupNames :: g in sp.table && sp.table[g].Filenames?)
            && c == MaterialiseGroups(boot.fs, sp.table, GroupNames, origin))
  {
  }

  // ------------------------------------------------------------------ Dataset

  /** A `Dataset`: the table `itens`, the listed ".jpg" names `images`, and the directory it reads from. */
  class Dataset {
    const fsys: FileSystem
    const originPath: Path
    var itens: Table
    var images: seq<string>

    /** The part of `__init__` that touches no file: the empty table and the origin. */
    constructor (fsys: FileSystem, originPath: Path)
      ensures this.fsys == fsys && this.originPath == originPath
      ensures itens == InitialTable && images == []
    {
      this.fsys := fsys;
      this.originPath := originPath;
      itens := InitialTable;
      images := [];
    }

    /** `create_directories`: each of `Dataset.paths` in turn, stopping at the first failure. */
    method CreateDirectories() returns (err: Option<Error>)
      modifies fsys
      ensures var boot := MakeAll(old(fsys.View()), DatasetDirs);
        && fsys.View() == boot.fs
        && (err.None? <==> boot.result.Ok?)
        && (err.Some? ==> err.value == boot.result.error)
    {
      ghost var fs0 := fsys.View();
      for i := 0 to |DatasetDirs|
        invariant MakeAll(fs0, DatasetDirs[..i]) == Effect(Ok(()), fsys.View())
      {
        assert DatasetDirs[..i + 1][..i] == DatasetDirs[..i];
        var e := fsys.MakeDirectories(DatasetDirs[i]);
        if e.Some? {
          MakeAllStops(fs0, DatasetDirs, i + 1);
          return Some(OsFailure(e.value));
        }
      }
      assert DatasetDirs[..|DatasetDirs|] == DatasetDirs;
      err := None;
    }

    /**
     * `split_base(root)`: list `<root>/images` (in the order `listing`), keep the
     * ".jpg" names in `images`, and split them into `itens`.
     */
    method SplitBase(root: Path, split: Splitter) returns (err: Option<Error>, ghost listing: seq<string>)
      modifies this
      ensures var dirError := ListDirError(fsys.View(), root + ["images"]);
        && (dirError.Some? ==> err == Some(OsFailure(dirError.value)) && itens == old(itens) && images == old(images))
        && (dirError.None? ==>
              && Enumerates(listing, Entries(fsys.View(), root + ["images"]))
              && images == JpgNames(listing)
              && var sp := SplitTable(old(itens), images, split);
              && itens == sp.table
              && (err.None? <==> sp.result.Ok?)
              && (err.Some? ==> err.value == sp.result.error))
    {
      var r := fsys.ListDir(root + ["images"]);
      if r.Err? {
        return Some(OsFailure(r.error)), [];
      }
      listing := r.value;
      images := JpgNames(r.value);
      var first := split(images, TestFraction);
      if first.None? {
        return Some(SplitInfeasible(|images|, TestFraction)), listing;
      }
      itens := itens["test" := Filenames(first.value.test)];
      var second := split(first.value.train, ValFraction);
      if second.None? {
        return Some(SplitInfeasible(|first.value.train|, ValFraction)), listing;
      }
      itens := itens["train" := Filenames(second.value.train)]["val" := Filenames(second.value.test)];
      err := None;
    }

    /** `set_dataset_items(filetype)`: a sample for each name of the group, in order, stopping at the first failure. */
    method SetDatasetItems(filetype: string) returns (err: Option<Error>)
      requires filetype in itens && itens[filetype].Filenames?
      modifies this, fsys
      ensures var e := SetItems(old(fsys.View()), old(itens), filetype, originPath);
        && fsys.View() == e.fs
        && (err.None? <==> e.result.Ok?)
        && (err.None? ==> itens == e.result.value)
        && (err.Some? ==> itens == old(itens) && err.value == e.result.error)
      ensures images == old(images)
    {
      ghost var fs0 := fsys.View();
      var names := itens[filetype].names;
      var samples: seq<ImageLabel> := [];
      for i := 0 to |names|
        invariant itens == old(itens) && images == old(images)
        invariant MaterialiseAll(fs0, filetype, names[..i], originPath) == Effect(Ok(samples), fsys.View())
      {
        assert names[..i + 1][..i] == names[..i];
        var r := NewImageLabel(fsys, filetype, names[i], originPath);
        if r.Err? {
          MaterialiseAllStops(fs0, filetype, names, originPath, i + 1);
          return Some(r.error);
        }
        samples := samples + [r.value];
      }
      assert names[..|names|] == names;
      itens := itens[filetype := Samples(samples)];
      err := None;
    }

    /**
     * The loop at the end of `__init__`: `set_dataset_items` for each key of
     * `itens`, in its order. When group `stopped` fails, the table holds the
     * groups before it as they were built, and the rest as they were.
     */
    method SetGroups() returns (err: Option<Error>, ghost stopped: nat)
      requires forall g | g in GroupNames :: g in itens && itens[g].Filenames?
      modifies this, fsys
      ensures var e := MaterialiseGroups(old(fsys.View()), old(itens), GroupNames, originPath);
        && fsys.View() == e.fs
        && (err.None? <==> e.result.Ok?)
        && (err.None? ==> itens == e.result.value)
        && (err.Some? ==> err.value == e.result.error)
      ensures err.Some? ==>
        && stopped < |GroupNames|
        && Distinct(GroupNames[..stopped]) && Distinct(GroupNames[..stopped + 1])
        && MaterialiseGroups(old(fsys.View()), old(itens), GroupNames[..stopped], originPath).result == Ok(itens)
        && MaterialiseGroups(old(fsys.View()), old(itens), GroupNames[..stopped + 1], originPath).result.Err?
      ensures images == old(images)
    {
      ghost var fs0 := fsys.View();
      ghost var table := itens;
      stopped := 0;
      for i := 0 to |GroupNames|
        invariant Distinct(GroupNames[..i])
        invariant images == old(images)
        invariant MaterialiseGroups(fs0, table, GroupNames[..i], originPath) == Effect(Ok(itens), fsys.View())
      {
        MaterialiseGroupsStep(fs0, table, GroupNames, originPath, i);
        err := SetDatasetItems(GroupNames[i]);
        if err.Some? {
          MaterialiseGroupsStops(fs0, table, GroupNames, originPath, i + 1);
          stopped := i;
          return;
        }
      }
      assert GroupNames[..|GroupNames|] == GroupNames;
      err := None;
    }

    /** The part of `__init__` that touches the disk: directories, split, then each group. */
    method Build(split: Splitter) returns (err: Option<Error>, ghost listing: seq<string>)
      requires itens == InitialTable
      modifies this, fsys
      ensures ListedImages(old(fsys.View()), originPath, listing)
      ensures var c := Construct(old(fsys.View()), originPath, listing, split);
        && fsys.View() == c.fs
        && (err.None? <==> c.result.Ok?)
        && (err.Some? ==> err.value == c.result.error)
        && (err.None? ==> itens == c.result.value)
      ensures var boot := MakeAll(old(fsys.View()), DatasetDirs);
        boot.result.Ok? && ListDirError(boot.fs, originPath + ["images"]).None? ==> images == JpgNames(listing)
      ensures err.None? ==> images == JpgNames(listing)
    {
      ghost var fs0 := fsys.View();
      err := CreateDirectories();
      if err.Some? {
        ConstructCases(fs0, originPath, [], split);
        return err, [];
      }
      err, listing := SplitBase(originPath, split);
      ConstructCases(fs0, originPath, listing, split);
      if err.Some? {
        return;
      }
      ghost var stopped;
      err, stopped := SetGroups();
    }
  }

  /** `Dataset(files_path)`: the dataset when every stage succeeds, otherwise the first error. */
  method NewDataset(fsys: FileSystem, filesPath: Path, split: Splitter)
    returns (r: Result<Dataset, Error>, ghost listing: seq<string>)
    modifies fsys
    ensures ListedImages(old(fsys.View()), filesPath, listing)
    ensures var c := Construct(old(fsys.View()), filesPath, listing, split);
      && fsys.View() == c.fs
      && (r.Ok? <==> c.result.Ok?)
      && (r.Ok? ==> fresh(r.value) && r.value.fsys == fsys && r.value.originPath == filesPath && r.value.itens == c.result.value)
      && (r.Ok? ==> r.value.images == JpgNames(listing))
      && (r.Err? ==> r.error == c.result.error)
  {
    var d := new Dataset(fsys, filesPath);
    var err;
    err, listing := d.Build(split);
    if err.Some? {
      return Err(err.value), listing;
    }
    r := Ok(d);
  }
}
