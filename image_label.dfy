/**
 * One sample of the dataset (the `ImageLabel` class): an image file and the
 * label file derived from its name, checked for existence at the origin and
 * copied into `dataset/images/<filetype>/` and `dataset/labels/<filetype>/`.
 */
module ImageLabels {
  import opened Wrappers
  import opened Text
  import opened FileSystem
  import Splitting

  /** Everything that can abort building the dataset. */
  datatype Error =
    | ImageMissing(path: Path)                                      // FileNotFoundError for the image
    | LabelMissing(path: Path)                                      // FileNotFoundError for the label
    | SplitInfeasible(samples: nat, testSize: Splitting.Fraction)   // ValueError of the split primitive
    | OsFailure(cause: FsError)                                     // an error of a file-system primitive

  /** The outcome of a step that may fail, with the file system it leaves behind either way. */
  datatype Effect<T> = Effect(result: Result<T, Error>, fs: Fs)

  const JpgSuffix: string := ".jpg"
  const TxtSuffix: string := ".txt"

  /** The fields an `ImageLabel` carries once it has been constructed. */
  datatype ImageLabel = ImageLabel(
    filetype: string,
    filename: string,
    imageFilename: string,
    imagePath: Path,
    labelFilename: string,
    labelPath: Path)

  /** `filename.replace('.jpg', '.txt')`. */
  function LabelName(filename: string): string
  {
    ReplaceAll(filename, JpgSuffix, TxtSuffix)
  }

  /** The fields of the sample for `filename` in group `filetype`, before any check. */
  function Describe(filetype: string, filename: string, origin: Path): ImageLabel
  {
    ImageLabel(filetype, filename,
      filename, origin + ["images", filename],
      LabelName(filename), origin + ["labels", LabelName(filename)])
  }

  /** `dataset/images/<filetype>/<name>`. */
  function ImageDest(filetype: string, name: string): Path
  {
    ["dataset", "images", filetype, name]
  }

  /** `dataset/labels/<filetype>/<name>`. */
  function LabelDest(filetype: string, name: string): Path
  {
    ["dataset", "labels", filetype, name]
  }

  /**
   * `add_to_dataset`: the image is copied to `dataset/images/<filetype>/` and then
   * the label to `dataset/labels/<filetype>/`; a failing label copy leaves the
   * image copy in place.
   */
  function AddedToDataset(fs: Fs, sample: ImageLabel): Effect<()>
  {
    match Copy(fs, sample.imagePath, ImageDest(sample.filetype, sample.imageFilename))
    case Err(e) => Effect(Err(OsFailure(e)), fs)
    case Ok(withImage) =>
      match Copy(withImage, sample.labelPath, LabelDest(sample.filetype, sample.labelFilename))
      case Err(e) => Effect(Err(OsFailure(e)), withImage)
      case Ok(withBoth) => Effect(Ok(()), withBoth)
  }

  /**
   * Constructing `ImageLabel(filetype, filename, origin)`: the image must exist,
   * then the label must exist, and then both are added to the dataset.
   */
  function Materialise(fs: Fs, filetype: string, filename: string, origin: Path): Effect<ImageLabel>
  {
    var sample := Describe(filetype, filename, origin);
    if !Exists(fs, sample.imagePath) then Effect(Err(ImageMissing(sample.imagePath)), fs)
    else if !Exists(fs, sample.labelPath) then Effect(Err(LabelMissing(sample.labelPath)), fs)
    else
      var added := AddedToDataset(fs, sample);
      Effect(if added.result.Ok? then Ok(sample) else Err(added.result.error), added.fs)
  }

  /** `add_to_dataset()` on the process-wide file system. */
  method AddToDataset(fsys: FileSystem, sample: ImageLabel) returns (err: Option<Error>)
    modifies fsys
    ensures var added := AddedToDataset(old(fsys.View()), sample);
      && fsys.View() == added.fs
      && (err.None? <==> added.result.Ok?)
      && (err.Some? ==> added.result.error == err.value)
  {
    var e := fsys.CopyFile(sample.imagePath, ImageDest(sample.filetype, sample.imageFilename));
    if e.Some? {
      return Some(OsFailure(e.value));
    }
    e := fsys.CopyFile(sample.labelPath, LabelDest(sample.filetype, sample.labelFilename));
    if e.Some? {
      return Some(OsFailure(e.value));
    }
    err := None;
  }

  /** `ImageLabel(filetype, filename, origin)` on the process-wide file system: the new sample, or the error it raises. */
  method NewImageLabel(fsys: FileSystem, filetype: string, filename: string, origin: Path)
    returns (r: Result<ImageLabel, Error>)
    modifies fsys
    ensures Effect(r, fsys.View()) == Materialise(old(fsys.View()), filetype, filename, origin)
  {
    var sample := Describe(filetype, filename, origin);
    if !fsys.PathExists(sample.imagePath) {
      return Err(ImageMissing(sample.imagePath));
    }
    if !fsys.PathExists(sample.labelPath) {
      return Err(LabelMissing(sample.labelPath));
    }
    var err := AddToDataset(fsys, sample);
    r := if err.None? then Ok(sample) else Err(err.value);
  }

  // ------------------------------------------------ checks and copies of a sample

  /**
   * The checks come before any copy and the image is checked first: a missing
   * image is reported even when the label is missing too, a missing label only
   * when the image exists, and either report leaves the file system as it was.
   */
  lemma MaterialiseChecks(fs: Fs, filetype: string, filename: string, origin: Path)
    ensures var imagePath := origin + ["images", filename];
      var labelPath := origin + ["labels", LabelName(filename)];
      var m := Materialise(fs, filetype, filename, origin);
      && (!Exists(fs, imagePath) <==> m.result.Err? && m.result.error.ImageMissing?)
      && (!Exists(fs, imagePath) ==> m == Effect(Err(ImageMissing(imagePath)), fs))
      && (Exists(fs, imagePath) && !Exists(fs, labelPath) <==> m.result.Err? && m.result.error.LabelMissing?)
      && (Exists(fs, imagePath) && !Exists(fs, labelPath) ==> m == Effect(Err(LabelMissing(labelPath)), fs))
  {
  }

  /**
   * A sample that was materialised changed exactly two entries of the file
   * system: the image's target now holds the image, the label's target the
   * label, whatever either held before; nothing else changed, and both
   * destinations exist.
   */
  lemma MaterialiseSuccess(fs: Fs, filetype: string, filename: string, origin: Path)
    requires Materialise(fs, filetype, filename, origin).result.Ok?
    ensures var m := Materialise(fs, filetype, filename, origin);
      var sample := Describe(filetype, filename, origin);
      var imageTarget := CopyTarget(fs, sample.imagePath, ImageDest(filetype, filename));
      var labelTarget := CopyTarget(fs, sample.labelPath, LabelDest(filetype, LabelName(filename)));
      && m.result.value == sample
      && imageTarget != labelTarget
      && m.fs.dirs == fs.dirs
      && m.fs.files.Keys == fs.files.Keys + {imageTarget, labelTarget}
      && m.fs.files[imageTarget] == fs.files[sample.imagePath]
      && (filetype != "labels" && filename != "labels" ==>
            sample.labelPath in fs.files && m.fs.files[labelTarget] == fs.files[sample.labelPath])
      && (forall p :: p in fs.files && p != imageTarget && p != labelTarget ==> m.fs.files[p] == fs.files[p])
      && Exists(m.fs, ImageDest(filetype, filename))
      && Exists(m.fs, LabelDest(filetype, LabelName(filename)))
  {
    var sample := Describe(filetype, filename, origin);
    var withImage := Copy(fs, sample.imagePath, ImageDest(filetype, filename)).value;
    CopyFrame(fs, sample.imagePath, ImageDest(filetype, filename));
    CopyFrame(withImage, sample.labelPath, LabelDest(filetype, LabelName(filename)));
    var imageTarget := CopyTarget(fs, sample.imagePath, ImageDest(filetype, filename));
    assert imageTarget[1] == "images";
    if filetype != "labels" && filename != "labels" {
      assert sample.labelPath[|origin|] == "labels";
      assert sample.labelPath != imageTarget;
    }
  }

  /**
   * A sample is materialised whenever both sources are regular files, the two
   * destination directories exist and neither destination is itself a directory.
   */
  lemma MaterialiseSucceeds(fs: Fs, filetype: string, filename: string, origin: Path)
    requires filetype != "images" && filetype != "labels"
    requires origin + ["images", filename] in fs.files
    requires origin + ["labels", LabelName(filename)] in fs.files
    requires IsDir(fs, ["dataset", "images", filetype]) && IsDir(fs, ["dataset", "labels", filetype])
    requires !IsDir(fs, ImageDest(filetype, filename))
    requires !IsDir(fs, LabelDest(filetype, LabelName(filename)))
    ensures Materialise(fs, filetype, filename, origin).result == Ok(Describe(filetype, filename, origin))
  {
    var sample := Describe(filetype, filename, origin);
    assert sample.imagePath[|origin|] == "images";
    assert sample.labelPath[|origin|] == "labels";
    assert sample.imagePath != ImageDest(filetype, filename);
    assert sample.labelPath != LabelDest(filetype, LabelName(filename));
    assert Parent(ImageDest(filetype, filename)) == ["dataset", "images", filetype];
    assert Parent(LabelDest(filetype, LabelName(filename))) == ["dataset", "labels", filetype];
  }

  // ------------------------------------------------------- label file names

  /** The label name is as long as the image name: ".jpg" and ".txt" have the same length. */
  lemma LabelNameKeepsLength(filename: string)
    ensures |LabelName(filename)| == |filename|
  {
    ReplaceAllKeepsLength(filename, JpgSuffix, TxtSuffix);
  }

  /** A name without ".jpg" in it is its own label name. */
  lemma LabelNameWithoutJpg(filename: string)
    requires !Contains(filename, JpgSuffix)
    ensures LabelName(filename) == filename
  {
    ReplaceAllWithoutOccurrence(filename, JpgSuffix, TxtSuffix);
  }

  /** One step of the scan: a leading ".jpg" is replaced, anything else is kept. */
  lemma LabelNameStep(s: string)
    requires |s| >= 4
    ensures LabelName(s) == if s[..4] == JpgSuffix then TxtSuffix + LabelName(s[4..]) else [s[0]] + LabelName(s[1..])
  {
  }

  /** A trailing ".jpg" always becomes ".txt", and the stem is treated on its own. */
  lemma {:induction false} LabelNameOfJpg(stem: string)
    ensures LabelName(stem + JpgSuffix) == LabelName(stem) + TxtSuffix
    decreases |stem|
  {
    var s := stem + JpgSuffix;
    LabelNameStep(s);
    if |stem| == 0 {
      assert s == JpgSuffix;
      assert s[4..] == [];
    } else if |stem| < 4 {
      // ".jpg" cannot overlap itself: the '.' of the trailing copy sits on 'j', 'p' or 'g' of a leading one.
      assert s[..4][|stem|] == s[|stem|] == '.';
      assert s[..4] != JpgSuffix;
      assert s[1..] == stem[1..] + JpgSuffix;
      LabelNameOfJpg(stem[1..]);
      ReplaceAllKeepsLengthShort(stem);
    } else {
      LabelNameStep(stem);
      assert stem[..4] == s[..4];
      if s[..4] == JpgSuffix {
        assert s[4..] == stem[4..] + JpgSuffix;
        LabelNameOfJpg(stem[4..]);
      } else {
        assert s[1..] == stem[1..] + JpgSuffix;
        LabelNameOfJpg(stem[1..]);
      }
    }
  }

  /** A name shorter than ".jpg" is left alone, one character at a time. */
  lemma ReplaceAllKeepsLengthShort(stem: string)
    requires 0 < |stem| < 4
    ensures LabelName(stem) == [stem[0]] + LabelName(stem[1..])
  {
    assert [stem[0]] + stem[1..] == stem;
  }

  /** Every character of a label name is the image name's own or one of ".txt". */
  lemma {:induction false} LabelNameCharacters(filename: string, k: nat)
    requires k < |filename|
    ensures |LabelName(filename)| == |filename|
    ensures LabelName(filename)[k] == filename[k] || LabelName(filename)[k] in TxtSuffix
    decreases |filename|
  {
    LabelNameKeepsLength(filename);
    if |filename| < 4 {
    } else if filename[..4] == JpgSuffix {
      if k >= 4 {
        LabelNameCharacters(filename[4..], k - 4);
      }
    } else if k > 0 {
      LabelNameCharacters(filename[1..], k - 1);
    }
  }

  /** Every occurrence is replaced, not only a trailing one: no ".jpg" is left in a label name. */
  lemma {:induction false} LabelNameHasNoJpg(filename: string)
    ensures !Contains(LabelName(filename), JpgSuffix)
    decreases |filename|
  {
    var r := LabelName(filename);
    LabelNameKeepsLength(filename);
    if |filename| < 4 {
    } else if filename[..4] == JpgSuffix {
      var rest := LabelName(filename[4..]);
      LabelNameHasNoJpg(filename[4..]);
      assert r == TxtSuffix + rest;
      forall i: nat | i <= |r| ensures !OccursAt(r, JpgSuffix, i) {
        if i >= 4 && i + 4 <= |r| {
          assert r[i..i + 4] == rest[i - 4..i];
          assert !OccursAt(rest, JpgSuffix, i - 4);
        } else if i < 4 && i + 4 <= |r| {
          assert r[i..i + 4][0] == r[i];
          assert r[i..i + 4][1] == r[i + 1];
        }
      }
    } else {
      var rest := LabelName(filename[1..]);
      LabelNameHasNoJpg(filename[1..]);
      assert r == [filename[0]] + rest;
      forall i: nat | i <= |r| ensures !OccursAt(r, JpgSuffix, i) {
        if i >= 1 && i + 4 <= |r| {
          assert r[i..i + 4] == rest[i - 1..i + 3];
          assert !OccursAt(rest, JpgSuffix, i - 1);
        } else if i == 0 {
          // 'j', 'p' and 'g' are not characters of ".txt", so they were copied from the name.
          LabelNameCharacters(filename[1..], 0);
          LabelNameCharacters(filename[1..], 1);
          LabelNameCharacters(filename[1..], 2);
          assert r[0] == filename[0] && r[1..4] == rest[..3];
          if filename[0] != '.' {
            assert r[..4][0] != JpgSuffix[0];
          } else if filename[1] != 'j' {
            assert r[..4][1] != JpgSuffix[1];
          } else if filename[2] != 'p' {
            assert r[..4][2] != JpgSuffix[2];
          } else {
            assert filename[3] != 'g' by {
              assert filename[..4] != JpgSuffix;
              assert filename[..4][..3] == JpgSuffix[..3];
            }
            assert r[..4][3] != JpgSuffix[3];
          }
        }
      }
    }
  }

  /** An occurrence in the middle is replaced too. */
  lemma LabelNameInsideExample()
    ensures LabelName("a.jpg.png") == "a.txt.png"
  {
    assert "a.jpg.png"[..4][0] != JpgSuffix[0];
    assert ".png"[..4][1] != JpgSuffix[1];
    assert "a.jpg.png"[1..] == ".jpg.png" && ".jpg.png"[4..] == ".png" && ".png"[1..] == "png";
  }
}
