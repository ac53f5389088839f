/**
 * The package's own two scenarios, on a folder laid out as its fixture lays it
 * out: for each stem `s` an image `s.jpg` under `<origin>/images` and its label
 * `s.txt` under `<origin>/labels`, with nothing else around. The fixture's
 * stems are img0 … img4.
 */
module Scenarios {
  import opened Wrappers
  import opened Seqs
  import opened Text
  import opened FileSystem
  import opened Splitting
  import opened ImageLabels
  import opened Datasets

  /** The fixture's folder. */
  const Origin: Path := ["tmp"]

  /** The stems of the fixture's five samples. */
  const FixtureStems: seq<string> := ["img0", "img1", "img2", "img3", "img4"]

  /** The bytes of an ASCII text. */
  function Ascii(s: string): Content
  {
    seq(|s|, i requires 0 <= i < |s| => (s[i] as int % 256) as bv8)
  }

  const ImageData: Content := Ascii("fake image data")
  const LabelData: Content := Ascii("label data")

  function ImagePath(stem: string): Path
  {
    Origin + ["images", stem + JpgSuffix]
  }

  function LabelPath(stem: string): Path
  {
    Origin + ["labels", stem + TxtSuffix]
  }

  function ImagePaths(stems: seq<string>): set<Path>
  {
    set s | s in stems :: ImagePath(s)
  }

  function LabelPaths(stems: seq<string>): set<Path>
  {
    set s | s in stems :: LabelPath(s)
  }

  /** The folder with a paired image and label for each stem, and the two directories holding them. */
  function Paired(stems: seq<string>): Fs
  {
    Fs((map p | p in ImagePaths(stems) :: ImageData) + (map p | p in LabelPaths(stems) :: LabelData),
       {Origin, Origin + ["images"], Origin + ["labels"]})
  }

  /** Every file of the folder lies three deep in the origin; its directories lie less deep. */
  lemma PairedShape(stems: seq<string>)
    ensures forall p | p in Paired(stems).files :: |p| == 3 && p[0] == "tmp"
    ensures forall d | d in Paired(stems).dirs :: |d| <= 2 && d[0] == "tmp"
  {
  }

  /** The folder's images are exactly those of its stems, and each label is where its image's stem puts it. */
  lemma PairedFiles(stems: seq<string>, s: string)
    requires s in stems
    ensures ImagePath(s) in Paired(stems).files && Paired(stems).files[ImagePath(s)] == ImageData
    ensures LabelPath(s) in Paired(stems).files && Paired(stems).files[LabelPath(s)] == LabelData
  {
    assert ImagePath(s) in ImagePaths(stems);
    assert LabelPath(s) in LabelPaths(stems);
    assert ImagePath(s)[1] != LabelPath(s)[1];
  }

  /** Each file of the folder lies directly in one of its two directories. */
  lemma PairedFileParent(stems: seq<string>, f: Path)
    requires f in Paired(stems).files
    ensures Parent(f) == Origin + ["images"] || Parent(f) == Origin + ["labels"]
  {
    if f in ImagePaths(stems) {
      var s :| s in stems && f == ImagePath(s);
    } else {
      assert f in LabelPaths(stems);
      var s :| s in stems && f == LabelPath(s);
    }
  }

  /** The fixture's folder is one that can exist. */
  lemma PairedValid(stems: seq<string>)
    ensures Valid(Paired(stems))
  {
    var fs := Paired(stems);
    PairedShape(stems);
    forall f | f in fs.files ensures IsDir(fs, Parent(f)) {
      PairedFileParent(stems, f);
    }
    assert Parent(Origin) == [];
    assert Parent(Origin + ["images"]) == Origin && Parent(Origin + ["labels"]) == Origin;
  }

  /** No stem has ".jpg" in it, so a label name only swaps the final extension. */
  ghost predicate Clean(stems: seq<string>)
  {
    forall i | 0 <= i < |stems| :: !Contains(stems[i], JpgSuffix)
  }

  lemma CleanLabelName(stem: string)
    requires !Contains(stem, JpgSuffix)
    ensures LabelName(stem + JpgSuffix) == stem + TxtSuffix
  {
    LabelNameOfJpg(stem);
    LabelNameWithoutJpg(stem);
  }

  /** No file of the folder stands where `dataset/...` is to be created. */
  lemma PairedHasRoomFor(stems: seq<string>, p: Path)
    requires |p| > 0 && p[0] == "dataset"
    ensures NoFileOnPath(Paired(stems), p)
  {
    PairedShape(stems);
    forall k | 0 <= k <= |p| ensures p[..k] !in Paired(stems).files {
      if k > 0 {
        assert p[..k][0] == "dataset";
      }
    }
  }

  /** The two directories of `dataset/images/train` and `dataset/labels/train` that the first scenario creates first. */
  const TrainDirs: seq<Path> := [["dataset", "images", "train"], ["dataset", "labels", "train"]]

  /** Creating the two train directories in the folder succeeds, touches no file and adds nothing deeper than three. */
  lemma TrainDirsReady(stems: seq<string>)
    ensures var prep := MakeAll(Paired(stems), TrainDirs);
      && prep.result.Ok?
      && prep.fs.files == Paired(stems).files
      && IsDir(prep.fs, TrainDirs[0]) && IsDir(prep.fs, TrainDirs[1])
      && forall d | d in prep.fs.dirs :: |d| <= 3
  {
    var fs := Paired(stems);
    PairedShape(stems);
    PairedHasRoomFor(stems, TrainDirs[0]);
    PairedHasRoomFor(stems, TrainDirs[1]);
    MakeAllEffect(fs, TrainDirs);
    var prep := MakeAll(fs, TrainDirs).fs;
    assert TrainDirs[0][..3] == TrainDirs[0] && TrainDirs[1][..3] == TrainDirs[1];
    assert TrainDirs[0] in Ancestry(TrainDirs[0]) && TrainDirs[1] in Ancestry(TrainDirs[1]);
    forall d | d in prep.dirs - fs.dirs ensures |d| <= 3 {
      var i :| 0 <= i < |TrainDirs| && d in Ancestry(TrainDirs[i]);
    }
  }

  /**
   * `test_image_label_success`, for any stem without ".jpg" in it: once
   * `dataset/images/train` and `dataset/labels/train` exist, the sample
   * `<stem>.jpg` of group train is built, and its image and label are in place
   * with the folder's contents.
   */
  lemma ImageLabelScenario(stems: seq<string>, stem: string)
    requires stem in stems && !Contains(stem, JpgSuffix)
    ensures var prep := MakeAll(Paired(stems), TrainDirs);
      && prep.result.Ok?
      && var m := Materialise(prep.fs, "train", stem + JpgSuffix, Origin);
      && m.result.Ok?
      && Exists(m.fs, ImageDest("train", stem + JpgSuffix))
      && Exists(m.fs, LabelDest("train", stem + TxtSuffix))
      && ImageDest("train", stem + JpgSuffix) in m.fs.files
      && LabelDest("train", stem + TxtSuffix) in m.fs.files
      && m.fs.files[ImageDest("train", stem + JpgSuffix)] == ImageData
      && m.fs.files[LabelDest("train", stem + TxtSuffix)] == LabelData
  {
    TrainDirsReady(stems);
    PairedFiles(stems, stem);
    TrainSampleBuilt(MakeAll(Paired(stems), TrainDirs).fs, stem);
  }

  /** On any file system holding the stem's image and label and the two train directories, the stem's sample is built. */
  lemma TrainSampleBuilt(prep: Fs, stem: string)
    requires !Contains(stem, JpgSuffix)
    requires ImagePath(stem) in prep.files && prep.files[ImagePath(stem)] == ImageData
    requires LabelPath(stem) in prep.files && prep.files[LabelPath(stem)] == LabelData
    requires IsDir(prep, TrainDirs[0]) && IsDir(prep, TrainDirs[1])
    requires forall d | d in prep.dirs :: |d| <= 3
    ensures var m := Materialise(prep, "train", stem + JpgSuffix, Origin);
      && m.result.Ok?
      && Exists(m.fs, ImageDest("train", stem + JpgSuffix))
      && Exists(m.fs, LabelDest("train", stem + TxtSuffix))
      && ImageDest("train", stem + JpgSuffix) in m.fs.files
      && LabelDest("train", stem + TxtSuffix) in m.fs.files
      && m.fs.files[ImageDest("train", stem + JpgSuffix)] == ImageData
      && m.fs.files[LabelDest("train", stem + TxtSuffix)] == LabelData
  {
    CleanLabelName(stem);
    var filename := stem + JpgSuffix;
    assert Origin + ["images", filename] == ImagePath(stem);
    assert Origin + ["labels", LabelName(filename)] == LabelPath(stem);
    assert !IsDir(prep, ImageDest("train", filename)) && !IsDir(prep, LabelDest("train", stem + TxtSuffix));
    MaterialiseSucceeds(prep, "train", filename, Origin);
    MaterialiseSuccess(prep, "train", filename, Origin);
  }

  /** The fixture's test: `img0.jpg` and `img0.txt` end up in `dataset/images/train` and `dataset/labels/train`. */
  lemma FixtureImageLabelScenario()
    ensures var prep := MakeAll(Paired(FixtureStems), TrainDirs);
      && prep.result.Ok?
      && var m := Materialise(prep.fs, "train", "img0.jpg", Origin);
      && m.result.Ok?
      && Exists(m.fs, ["dataset", "images", "train", "img0.jpg"])
      && Exists(m.fs, ["dataset", "labels", "train", "img0.txt"])
  {
    var stem := FixtureStems[0];
    assert !Contains(stem, JpgSuffix) by {
      forall k: nat | k <= |stem| ensures !OccursAt(stem, JpgSuffix, k) {
        if k == 0 {
          assert stem[..4][0] != JpgSuffix[0];
        }
      }
    }
    assert stem + JpgSuffix == "img0.jpg" && stem + TxtSuffix == "img0.txt";
    ImageLabelScenario(FixtureStems, stem);
  }

  /** The image names of the folder, one per stem. */
  function ImageNames(stems: seq<string>): seq<string>
  {
    seq(|stems|, i requires 0 <= i < |stems| => stems[i] + JpgSuffix)
  }

  /** Distinct stems give distinct image names. */
  lemma ImageNamesDistinct(stems: seq<string>)
    requires Distinct(stems)
    ensures Distinct(ImageNames(stems))
  {
    var names := ImageNames(stems);
    forall i, j | 0 <= i < j < |names| ensures names[i] != names[j] {
      assert names[i][..|stems[i]|] == stems[i];
      assert names[j][..|stems[j]|] == stems[j];
      if |stems[i]| == |stems[j]| {
        assert names[i][..|stems[i]|] != names[j][..|stems[j]|];
      } else {
        assert |names[i]| != |names[j]|;
      }
    }
  }

  /** Creating the six directories in the folder succeeds, touches no file and adds directories under `dataset` only. */
  lemma PairedBoot(stems: seq<string>)
    ensures var boot := MakeAll(Paired(stems), DatasetDirs);
      && boot.result.Ok?
      && boot.fs.files == Paired(stems).files
      && Paired(stems).dirs <= boot.fs.dirs
      && forall d | d in boot.fs.dirs - Paired(stems).dirs :: |d| > 0 && d[0] == "dataset"
  {
    var fs := Paired(stems);
    forall i | 0 <= i < |DatasetDirs| ensures NoFileOnPath(fs, DatasetDirs[i]) {
      PairedHasRoomFor(stems, DatasetDirs[i]);
    }
    MakeAllEffect(fs, DatasetDirs);
    var boot := MakeAll(fs, DatasetDirs).fs;
    forall d | d in boot.dirs - fs.dirs ensures |d| > 0 && d[0] == "dataset" {
      var i :| 0 <= i < |DatasetDirs| && d in Ancestry(DatasetDirs[i]);
    }
  }

  /** Every image of the folder is listed. */
  lemma ListingHasImages(stems: seq<string>, after: Fs)
    requires after.files == Paired(stems).files
    ensures forall x | x in ImageNames(stems) :: x in Entries(after, Origin + ["images"])
  {
    var images := Origin + ["images"];
    var names := ImageNames(stems);
    forall x | x in names ensures x in Entries(after, images) {
      var i :| 0 <= i < |names| && names[i] == x;
      PairedFiles(stems, stems[i]);
      var q := images + [x];
      assert q == ImagePath(stems[i]);
      assert q in after.files.Keys && |q| == |images| + 1 && q[..|images|] == images && q[|images|] == x;
    }
  }

  /** A file of the folder inside `<origin>/images` is the image of one of its stems. */
  lemma PairedImageFile(stems: seq<string>, q: Path)
    requires q in Paired(stems).files && q[1] == "images"
    ensures exists i | 0 <= i < |stems| :: q == ImagePath(stems[i])
  {
    assert "images" != "labels" by {
      assert "images"[0] != "labels"[0];
    }
    assert forall s | s in stems :: LabelPath(s)[1] == "labels";
    assert q !in LabelPaths(stems);
    assert q in ImagePaths(stems);
    var s :| s in stems && q == ImagePath(s);
    var i :| 0 <= i < |stems| && stems[i] == s;
  }

  /** Nothing but the images of the folder is listed. */
  lemma ListingOnlyImages(stems: seq<string>, after: Fs)
    requires after.files == Paired(stems).files
    requires forall d | d in after.dirs && |d| == 3 :: d[0] == "dataset"
    ensures forall x | x in Entries(after, Origin + ["images"]) :: x in ImageNames(stems)
  {
    var images := Origin + ["images"];
    var names := ImageNames(stems);
    forall x | x in Entries(after, images) ensures x in names {
      var q :| q in after.files.Keys + after.dirs && |q| == |images| + 1 && q[..|images|] == images && q[|images|] == x;
      ListedIsImage(stems, after, q);
    }
  }

  /** An entry directly inside the images directory is one of the folder's images. */
  lemma ListedIsImage(stems: seq<string>, after: Fs, q: Path)
    requires after.files == Paired(stems).files
    requires forall d | d in after.dirs && |d| == 3 :: d[0] == "dataset"
    requires q in after.files.Keys + after.dirs && |q| == 3 && q[..2] == Origin + ["images"]
    ensures q[2] in ImageNames(stems)
  {
    assert q[0] == q[..2][0] == "tmp";
    assert q[1] == q[..2][1] == "images";
    assert "tmp" != "dataset";
    assert q !in after.dirs;
    PairedImageFile(stems, q);
    var i :| 0 <= i < |stems| && q == ImagePath(stems[i]);
    assert ImageNames(stems)[i] == q[2];
  }

  /** After the bootstrap, the folder's images directory still lists exactly the images of its stems. */
  lemma PairedListing(stems: seq<string>)
    ensures var boot := MakeAll(Paired(stems), DatasetDirs);
      && boot.result.Ok?
      && ListDirError(boot.fs, Origin + ["images"]).None?
      && Entries(boot.fs, Origin + ["images"]) == set x | x in ImageNames(stems)
  {
    PairedShape(stems);
    PairedBoot(stems);
    var boot := MakeAll(Paired(stems), DatasetDirs).fs;
    assert Origin + ["images"] in boot.dirs;
    assert forall d | d in boot.dirs && |d| == 3 :: d[0] == "dataset" by {
      forall d | d in boot.dirs && |d| == 3 ensures d[0] == "dataset" {
        assert d !in Paired(stems).dirs;
      }
    }
    ListingHasImages(stems, boot);
    ListingOnlyImages(stems, boot);
  }

  /** Every image name ends in ".jpg". */
  lemma ImageNamesAreJpgs(stems: seq<string>, x: string)
    requires x in ImageNames(stems)
    ensures EndsWith(x, JpgSuffix)
  {
    var k :| 0 <= k < |stems| && ImageNames(stems)[k] == x;
    assert x == stems[k] + JpgSuffix;
    assert x[|x| - 4..] == JpgSuffix;
  }

  /** A sequence without repetitions that enumerates the elements of another such sequence has its length. */
  lemma EnumerationLength(listing: seq<string>, names: seq<string>)
    requires Distinct(names)
    requires Enumerates(listing, set x | x in names)
    ensures |listing| == |names|
  {
    assert (set x | x in listing) == (set x | x in names);
    DistinctCardinality(listing);
    DistinctCardinality(names);
  }

  /** An enumeration of the folder's images is those images in some order: all kept by the filter, one per stem. */
  lemma PairedListingOrder(stems: seq<string>, listing: seq<string>)
    requires Distinct(stems)
    requires Enumerates(listing, set x | x in ImageNames(stems))
    ensures JpgNames(listing) == listing
    ensures |listing| == |stems|
    ensures forall x | x in listing :: x in ImageNames(stems)
  {
    var names := ImageNames(stems);
    forall i | 0 <= i < |listing| ensures EndsWith(listing[i], JpgSuffix) && listing[i] in names {
      assert listing[i] in listing;
      assert listing[i] in (set x | x in names);
      ImageNamesAreJpgs(stems, listing[i]);
    }
    JpgNamesKeepsJpgs(listing);
    ImageNamesDistinct(stems);
    EnumerationLength(listing, ImageNames(stems));
  }

  /** Each image of a clean stem is buildable in every group. */
  lemma PairedBuildable(stems: seq<string>, k: nat, g: string)
    requires Clean(stems) && k < |stems|
    ensures Buildable(Paired(stems), g, stems[k] + JpgSuffix, Origin)
  {
    var x := stems[k] + JpgSuffix;
    PairedShape(stems);
    PairedFiles(stems, stems[k]);
    CleanLabelName(stems[k]);
    assert Origin + ["images", x] == ImagePath(stems[k]);
    assert Origin + ["labels", LabelName(x)] == LabelPath(stems[k]);
  }

  /** A folder of clean stems is well laid out for any listing of its images. */
  lemma PairedWellLaidOut(stems: seq<string>, listing: seq<string>)
    requires Clean(stems)
    requires forall x | x in JpgNames(listing) :: x in ImageNames(stems)
    ensures WellLaidOut(Paired(stems), Origin, listing)
  {
    var fs := Paired(stems);
    var names := ImageNames(stems);
    forall i | 0 <= i < |DatasetDirs| ensures NoFileOnPath(fs, DatasetDirs[i]) {
      PairedHasRoomFor(stems, DatasetDirs[i]);
    }
    forall g, x | g in GroupNames && x in JpgNames(listing) ensures Buildable(fs, g, x, Origin) {
      var k :| 0 <= k < |names| && names[k] == x;
      PairedBuildable(stems, k, g);
    }
  }

  /**
   * `test_dataset_split_and_creation`, for any folder of at least three paired
   * samples with distinct stems free of ".jpg": whatever order `os.listdir`
   * reports the images in, and for any primitive that partitions and follows
   * the sizing rule, `Dataset(origin)` is built, every group is non-empty and
   * the groups have the sizes the rule gives for n = |stems|.
   */
  lemma PairedDatasetScenario(stems: seq<string>, listing: seq<string>, split: Splitter)
    requires Distinct(stems) && Clean(stems) && |stems| >= 3
    requires Partitions(split) && FollowsSizeRule(split)
    requires ListedImages(Paired(stems), Origin, listing)
    ensures Construct(Paired(stems), Origin, listing, split).result.Ok?
    ensures var t := Construct(Paired(stems), Origin, listing, split).result.value;
      var n := |stems|;
      var m := n - (n + 4) / 5;
      && Built(t)
      && |t["test"].samples| == (n + 4) / 5 > 0
      && |t["val"].samples| == (m + 3) / 4 > 0
      && |t["train"].samples| == m - (m + 3) / 4 > 0
  {
    var fs := Paired(stems);
    PairedListing(stems);
    PairedListingOrder(stems, listing);
    PairedWellLaidOut(stems, listing);
    ConstructSucceeds(fs, Origin, listing, split);
    ConstructSizeRule(fs, Origin, listing, split);
  }
  /** The fixture's test: its five samples are split 3 / 1 / 1, so no group is empty. */
  lemma FixtureDatasetScenario(listing: seq<string>, split: Splitter)
    requires Partitions(split) && FollowsSizeRule(split)
    requires ListedImages(Paired(FixtureStems), Origin, listing)
    ensures Construct(Paired(FixtureStems), Origin, listing, split).result.Ok?
    ensures var t := Construct(Paired(FixtureStems), Origin, listing, split).result.value;
      && Built(t)
      && |t["train"].samples| == 3 && |t["val"].samples| == 1 && |t["test"].samples| == 1
  {
    forall i | 0 <= i < |FixtureStems| ensures !Contains(FixtureStems[i], JpgSuffix) {
      var stem := FixtureStems[i];
      assert stem[0] == 'i';
      forall k: nat | k <= |stem| ensures !OccursAt(stem, JpgSuffix, k) {
        if k == 0 {
          assert stem[..4][0] != JpgSuffix[0];
        }
      }
    }
    forall i, j | 0 <= i < j < |FixtureStems| ensures FixtureStems[i] != FixtureStems[j] {
      assert FixtureStems[i][3] != FixtureStems[j][3];
    }
    PairedDatasetScenario(FixtureStems, listing, split);
  }
}
