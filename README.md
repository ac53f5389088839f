# AUTO-DATASET-BUILDER, modelled in Dafny

`dataset_builder.builder` organises a flat folder into a training layout. The
folder is `<origin>/images/*.jpg` plus `<origin>/labels/*.txt`, and the layout
is `dataset/{images,labels}/{train,val,test}/`. Constructing `Dataset(files_path)`
does three things in order:

1. It creates the six destination directories.
2. It lists `<origin>/images`, keeps the names ending in `.jpg`, and splits
   them: 20% go to `test`, then 25% of the rest go to `val`, and the remainder
   to `train`.
3. It replaces each group's name list, group by group, with `ImageLabel`
   records. Each record checks that its image and label exist and copies both
   into the layout.

The first failure stops the run and nothing is rolled back.

The model has eight modules, one file each:

- `wrappers.dfy`: `Option` and `Result`.
- `seqs.dfy`: sequences without repetitions.
- `text.dfy`: `str.endswith` and `str.replace`. `ReplaceAll` scans from the
  left and skips what it has replaced, as `str.replace` does.
- `filesystem.dfy` models the file system.
  - It is a value `Fs`: a map from paths (sequences of name segments) to byte
    contents, plus a set of directories.
  - `shutil.copy`, `Path.mkdir(parents=True, exist_ok=True)` and `os.listdir`
    are pure functions on that value (`Copy`, `MakeDirs`, `Entries`), with
    their edge cases:
    - a destination that is a directory;
    - the same file;
    - a source that is a directory;
    - a missing parent;
    - a file standing where a directory is needed, at any depth of the path
      (reported as not a directory, as path resolution does).
  - A class `FileSystem` holds the process-wide state. Its methods apply those
    functions in place.
- `splitting.dfy` models sklearn's `train_test_split`.
  - It is a function value (`Splitter`) passed in by the caller. Its contract
    is written as two predicates: `Partitions` (the two parts are a
    permutation cut of the input) and `FollowsSizeRule` (the test part has
    ceil(f·n) elements, and the call fails when nothing would be left to
    train on).
  - `CutSplit` shows that both can hold at once.
- `image_label.dfy` models `ImageLabel`. `Describe` derives the names and
  paths, and `Materialise` is the checks plus the two copies. The methods
  `AddToDataset` and `NewImageLabel` run them against a `FileSystem`.
- `dataset.dfy` models `Dataset`.
  - Functions state each stage: `MakeAll`, `JpgNames`, `SplitTable`,
    `MaterialiseAll`, `MaterialiseGroups`. `Construct` states the whole
    construction. Each function returns the result together with the file
    system left behind, on failure as well as on success.
  - The class `Dataset` holds the table `itens`, the listed `images` and the
    origin. Its methods `CreateDirectories`, `SplitBase`, `SetDatasetItems`,
    `SetGroups` and `Build` have the loops and in-place updates of the
    source. Each is proved to leave the file system, the table and `images`
    as its function describes; after a failure `Build` states the file system
    but not the table (see "Left out").
- `scenarios.dfy` covers the package's two tests, on the folder their fixture
  lays out. `Paired(stems)` gives, for each stem, an image and its label. The
  test's own stems are `img0` … `img4`. Each scenario is proved for any such
  folder and then for the fixture itself.

`builder.py` has no negative-sample generator and no constructor flag, and its
split is not stratified: the model has an unstratified two-stage split and no
negatives.

## Model

| member | source | states |
|---|---|---|
| `Text.ReplaceAllKeepsLength` | src/dataset_builder/builder.py:18 | replacing a pattern by one of equal length keeps the length of the string |
| `Text.ReplaceAllWithoutOccurrence` | src/dataset_builder/builder.py:18 | a string without the pattern is returned unchanged |
| `Seqs.DistinctCountsAtMostOne` | src/dataset_builder/builder.py:59 | in a sequence without repetitions every element occurs at most once (used for the listing of a directory) |
| `Seqs.CountsAtMostOneDistinct` | src/dataset_builder/builder.py:59 | conversely, a sequence in which no element occurs twice has no repetitions |
| `Seqs.DistinctCardinality` | src/dataset_builder/builder.py:59 | a sequence without repetitions has as many elements as the set of its elements |
| `FileSystem.CopyFrame` | src/dataset_builder/builder.py:32-33 | a successful `shutil.copy` writes the source's content to the target (`dst`, or `dst/<basename>` when `dst` is a directory), overwriting any prior value; it adds only that key and changes no other file and no directory |
| `FileSystem.CopySucceeds` | src/dataset_builder/builder.py:32-33 | exactly when `shutil.copy` succeeds: the source is a file, the target is a different path, the target's parent is a directory and the target is not a directory |
| `FileSystem.CopyKeepsValid` | src/dataset_builder/builder.py:32-33 | copying keeps the file system well formed: files and directories are disjoint and every parent is a directory |
| `FileSystem.MakeDirsEffect` | src/dataset_builder/builder.py:70 | `mkdir(parents=True, exist_ok=True)` succeeds iff no prefix of the path is a file; it then makes every prefix a directory, adds nothing else and never touches a file |
| `FileSystem.MakeDirsWhenPresent` | src/dataset_builder/builder.py:70 | on an existing directory, `mkdir` changes nothing |
| `FileSystem.MakeDirsKeepsValid` | src/dataset_builder/builder.py:70 | creating directories keeps the file system well formed |
| `FileSystem.FileAboveIsNotDir` | src/dataset_builder/builder.py:56-59 | in a file system that can exist, nothing at or below a regular file is a directory |
| `FileSystem.ListDirBelowFile` | src/dataset_builder/builder.py:56-59 | `os.listdir` of a path with a regular file at it or anywhere above it fails as not a directory (`NotADirectoryError`) |
| `FileSystem.CopyBelowFile` | src/dataset_builder/builder.py:32-33 | `shutil.copy` to a path with a regular file anywhere above it fails as not a directory |
| `FileSystem.FileSystem.constructor` | src/dataset_builder/builder.py:32-33 | the process file system starts as the given value |
| `FileSystem.FileSystem.CopyFile` | src/dataset_builder/builder.py:32-33 | the state afterwards is what `Copy` gives, and is unchanged on error with that error reported |
| `FileSystem.FileSystem.MakeDirectories` | src/dataset_builder/builder.py:70 | the state afterwards is what `MakeDirs` gives, and is unchanged on error with that error reported |
| `FileSystem.FileSystem.ListDir` | src/dataset_builder/builder.py:59 | `os.listdir` fails exactly when the path is not a directory (not-a-directory or not-found); otherwise it returns every entry exactly once, in some order |
| `Splitting.CutSplitIsLawful` | src/dataset_builder/builder.py:62-65 | the partition and sizing contract of the split primitive can be met (a cut of the input satisfies both) |
| `Splitting.SplitSizes` | src/dataset_builder/builder.py:62-65 | a lawful split of n items by fraction f has a test part of ceil(f·n) items and a non-empty training part of the rest |
| `ImageLabels.NewImageLabel` | src/dataset_builder/builder.py:9-28 | creating an `ImageLabel` changes the file system exactly as `Materialise` says and returns its record or its error |
| `ImageLabels.AddToDataset` | src/dataset_builder/builder.py:30-33 | the image copy, then the label copy; the state is what `AddedToDataset` gives, including an image copy left behind when the label copy fails |
| `ImageLabels.MaterialiseChecks` | src/dataset_builder/builder.py:21-25 | a missing image is reported, even when the label is missing too, iff the image path does not exist; a missing label only when the image exists; either report leaves the file system unchanged |
| `ImageLabels.MaterialiseSuccess` | src/dataset_builder/builder.py:13-33 | a materialised sample is its described record (the image name unchanged, the sources `origin/images/<name>` and `origin/labels/<label name>`); exactly the two targets are added or overwritten, with the sources' contents; every other path and every directory is untouched; both destinations exist |
| `ImageLabels.MaterialiseSucceeds` | src/dataset_builder/builder.py:21-33 | with both sources present as files, the destination directories present and no directory in the way, a sample is materialised |
| `ImageLabels.LabelNameKeepsLength` | src/dataset_builder/builder.py:18 | the label name has the length of the image name |
| `ImageLabels.LabelNameWithoutJpg` | src/dataset_builder/builder.py:18 | a name without ".jpg" is its own label name |
| `ImageLabels.LabelNameOfJpg` | src/dataset_builder/builder.py:18 | the final ".jpg" of a name becomes ".txt" |
| `ImageLabels.LabelNameCharacters` | src/dataset_builder/builder.py:18 | the label name is as long as the image name, and each of its characters is the image name's character at that place or one of ".txt" |
| `ImageLabels.LabelNameHasNoJpg` | src/dataset_builder/builder.py:18 | no ".jpg" is left anywhere in a label name: every occurrence is replaced, not only the suffix |
| `ImageLabels.LabelNameInsideExample` | src/dataset_builder/builder.py:18 | an occurrence inside the name is replaced too: "a.jpg.png" gets the label name "a.txt.png" |
| `Datasets.MakeAllEffect` | src/dataset_builder/builder.py:67-70 | creating the directories in turn succeeds iff no prefix of any of them is a file; it then makes every prefix of each a directory, adds no other directory and never touches a file |
| `Datasets.MakeAllWhenPresent` | src/dataset_builder/builder.py:67-70 | over existing directories it changes nothing |
| `Datasets.MakeAllIdempotent` | src/dataset_builder/builder.py:67-70 | creating the directories a second time changes nothing |
| `Datasets.BootstrapMakesSixDirs` | src/dataset_builder/builder.py:44-51 | after a successful bootstrap, `dataset/images/<g>` and `dataset/labels/<g>` are directories for each of train, val and test |
| `Datasets.MakeAllStops` | src/dataset_builder/builder.py:69-70 | once a directory fails, no later one is attempted |
| `Datasets.JpgNamesCounts` | src/dataset_builder/builder.py:59 | the filter keeps each name ending in ".jpg" as often as it is listed, and drops every other name |
| `Datasets.JpgNamesDistinct` | src/dataset_builder/builder.py:59 | filtering a listing without repetitions gives names without repetitions |
| `Datasets.JpgNamesKeepsJpgs` | src/dataset_builder/builder.py:59 | a listing of ".jpg" names only is kept whole and in order |
| `Datasets.SplitPartition` | src/dataset_builder/builder.py:62-65 | given a partitioning primitive, the table gets the three groups as name lists whose multisets add up to the filtered names |
| `Datasets.SplitTableShape` | src/dataset_builder/builder.py:62-65 | whatever the primitive returns, the table keeps exactly the keys train, val and test, each a list of names |
| `Datasets.SplitMembers` | src/dataset_builder/builder.py:62-65 | given a partitioning primitive, every name in every group is one of the filtered names |
| `Datasets.SplitDisjoint` | src/dataset_builder/builder.py:62-65 | from names without repetitions, no name is in two groups |
| `Datasets.SplitArithmetic` | src/dataset_builder/builder.py:62-65 | for n >= 3 the ceiling sizes leave every group non-empty |
| `Datasets.SplitSizeRule` | src/dataset_builder/builder.py:62-65 | with a lawful primitive the split succeeds iff there are at least 3 names; test gets ceil(n/5), val ceil(m/4) of the m others, train the rest, all non-empty |
| `Datasets.FiveSampleSplit` | tests/test_builder.py:15-19 | five names split 3 / 1 / 1 |
| `Datasets.MaterialiseGroups` | src/dataset_builder/builder.py:92-93 | building the groups keeps the table's keys and leaves every group not in the list as it was |
| `Datasets.MaterialiseGrows` | src/dataset_builder/builder.py:9-33 | materialising a sample never removes a file and never changes a directory, whatever the outcome |
| `Datasets.MaterialiseAllGrows` | src/dataset_builder/builder.py:72-77 | the same holds for a whole group |
| `Datasets.MaterialiseAllRecords` | src/dataset_builder/builder.py:74-77 | a group that is built holds one record per name, in the order of the names |
| `Datasets.MaterialiseAllDestinations` | src/dataset_builder/builder.py:74-77 | after a group is built both destinations of every one of its names exist |
| `Datasets.MaterialiseAllAbortPoint` | src/dataset_builder/builder.py:74-77 | a failed group fails at some name k: the names before it were built and name k failed |
| `Datasets.MaterialiseAllAborts` | src/dataset_builder/builder.py:74-77 | a failed group leaves the copies of the samples before the failing one in place (no rollback) |
| `Datasets.MaterialiseAllStops` | src/dataset_builder/builder.py:74-77 | once a sample fails, no later sample of the group is attempted |
| `Datasets.MaterialiseAllSucceeds` | src/dataset_builder/builder.py:74-77 | a group whose directories are ready and whose samples are all buildable is built |
| `Datasets.MaterialiseGroupsGrows` | src/dataset_builder/builder.py:92-93 | building the groups never removes a file and never changes a directory, whatever the outcome |
| `Datasets.MaterialiseGroupsTable` | src/dataset_builder/builder.py:92-93 | each built group holds exactly the records of its names, in order |
| `Datasets.MaterialiseGroupsDestinations` | src/dataset_builder/builder.py:92-93 | after the groups are built both destinations of every name of every group exist |
| `Datasets.MaterialiseGroupsSucceeds` | src/dataset_builder/builder.py:92-93 | ready groups with buildable names are all built |
| `Datasets.MaterialiseGroupsStops` | src/dataset_builder/builder.py:92-93 | once a group fails, no later group is attempted |
| `Datasets.MaterialiseGroupsAborts` | src/dataset_builder/builder.py:72-93 | a failed run over the groups stops at a first group j and sample k: the groups before j were built and all their copies are still in place, group j ends at sample k with its earlier samples' copies in place, and the run ends with sample k's error and file system |
| `Datasets.NamesOfDescribeAll` | src/dataset_builder/builder.py:74-77 | the records of a group carry its names, one each and in order |
| `Datasets.PopulateTable` | src/dataset_builder/builder.py:62-65 | after the split, each built group holds the records of the names the split gave it |
| `Datasets.ConstructPartition` | src/dataset_builder/builder.py:59-93 | a built dataset has exactly the keys train, val and test, each holding records; given a partitioning primitive, their names together are the ".jpg" names of the listing, each as often, sizes summing to its length; from a listing without repetitions the groups are pairwise disjoint |
| `Datasets.ConstructDestinations` | src/dataset_builder/builder.py:89-93 | after a dataset is built both destinations of every record of every group exist |
| `Datasets.PopulateDestinations` | src/dataset_builder/builder.py:62-93 | after the split and the groups, both destinations of every record exist |
| `Datasets.ConstructNoRollback` | src/dataset_builder/builder.py:89-93 | whatever the outcome, no file and no directory that existed before is removed |
| `Datasets.ConstructAborts` | src/dataset_builder/builder.py:89-93 | a failure in the directories, the listing or the split has copied no file; a failure while building the groups stops at a group j and sample k, leaving the copies of the earlier groups (train's, then val's) and of that group's earlier samples in place |
| `Datasets.ConstructOnFile` | src/dataset_builder/builder.py:53-59 | `Dataset(files_path)` on a regular file raises `NotADirectoryError` for `files_path/images` after creating the directories, and copies nothing |
| `Datasets.MakeAllKeepsValid` | src/dataset_builder/builder.py:67-70 | creating the directories leaves a file system that can exist, whatever the outcome |
| `Datasets.MaterialiseKeepsValid` | src/dataset_builder/builder.py:9-33 | building a sample leaves a file system that can exist, whatever the outcome |
| `Datasets.MaterialiseAllKeepsValid` | src/dataset_builder/builder.py:72-77 | building a group leaves a file system that can exist, whatever the outcome |
| `Datasets.MaterialiseGroupsKeepsValid` | src/dataset_builder/builder.py:92-93 | building the groups leaves a file system that can exist, whatever the outcome |
| `Datasets.ConstructKeepsValid` | src/dataset_builder/builder.py:79-93 | from a file system that can exist, `Dataset(files_path)` leaves one that can exist, however far it gets |
| `Datasets.PopulateSucceeds` | src/dataset_builder/builder.py:62-93 | with ready directories, buildable images, at least three of them and a lawful primitive, every group is built and none is empty |
| `Datasets.BootstrapKeepsBuildable` | src/dataset_builder/builder.py:67-70 | creating the six directories puts no directory where a sample's file is to go |
| `Datasets.ConstructSucceeds` | src/dataset_builder/builder.py:79-93 | on well-laid-out input with at least three ".jpg" names and a lawful primitive the dataset is built with three non-empty groups |
| `Datasets.ConstructSizeRule` | src/dataset_builder/builder.py:62-65 | a built dataset of n names has ceil(n/5) test, ceil(m/4) val and m - ceil(m/4) train records, where m = n - ceil(n/5) |
| `Datasets.FiveSampleScenario` | tests/test_builder.py:38-43 | with five paired images, the dataset is built with 3 train, 1 val and 1 test records |
| `Datasets.Dataset.constructor` | src/dataset_builder/builder.py:81-87 | the table starts with train, val and test empty, and the origin recorded |
| `Datasets.Dataset.CreateDirectories` | src/dataset_builder/builder.py:67-70 | the file system afterwards is what `MakeAll` gives for `Dataset.paths`, with its error if any |
| `Datasets.Dataset.SplitBase` | src/dataset_builder/builder.py:53-65 | a listing failure leaves the table alone; otherwise `listing` enumerates the folder, `images` is its ".jpg" filter and the table is as `SplitTable` sets it, including the test group set before a failing second split |
| `Datasets.Dataset.SetDatasetItems` | src/dataset_builder/builder.py:72-77 | the file system and the group afterwards are what `SetItems` gives; on failure the group keeps its names; `images` is unchanged |
| `Datasets.Dataset.SetGroups` | src/dataset_builder/builder.py:92-93 | the file system and table afterwards are what `MaterialiseGroups` gives for train, val, test; when a group fails, the table is the one the groups before it left (they built, it failing) and the file system is the one the failure left; `images` is unchanged |
| `Datasets.Dataset.Build` | src/dataset_builder/builder.py:89-93 | the file system, table and outcome afterwards are what `Construct` gives for the listing `os.listdir` produced; once the listing succeeded, `images` is its ".jpg" filter |
| `Datasets.NewDataset` | src/dataset_builder/builder.py:79-93 | `Dataset(files_path)` returns a fresh dataset holding `Construct`'s table and, as `images`, the ".jpg" names of the listing when that succeeds, and otherwise its error, with the file system as `Construct` leaves it |
| `Scenarios.PairedFiles` | tests/test_builder.py:14-19 | each stem's image `origin/images/<stem>.jpg` and label `origin/labels/<stem>.txt` are files of the folder, with the fixture's contents |
| `Scenarios.PairedValid` | tests/test_builder.py:6-21 | the fixture's folder is a file system that can exist |
| `Scenarios.PairedListing` | src/dataset_builder/builder.py:56-59 | after the bootstrap, the folder's images directory can be listed and holds exactly the images of its stems |
| `Scenarios.PairedListingOrder` | src/dataset_builder/builder.py:59 | any listing of those images is kept whole by the ".jpg" filter and has one name per stem |
| `Scenarios.PairedWellLaidOut` | tests/test_builder.py:6-21 | a folder of stems without ".jpg" in them is well laid out: no file in the way of `dataset/`, the images directory exists, every listed image is buildable in every group |
| `Scenarios.ImageLabelScenario` | tests/test_builder.py:24-35 | once the two train directories exist, the sample `<stem>.jpg` of group train is built, and its image and label are in place with the fixture's contents |
| `Scenarios.TrainSampleBuilt` | tests/test_builder.py:24-35 | wherever the stem's image and label are files with the fixture's contents and the two train directories exist, the sample is built and both copies have those contents |
| `Scenarios.FixtureImageLabelScenario` | tests/test_builder.py:24-35 | on the fixture, `img0.jpg` and `img0.txt` exist under `dataset/images/train` and `dataset/labels/train` afterwards |
| `Scenarios.PairedDatasetScenario` | tests/test_builder.py:38-43 | for any folder of at least three distinct clean stems, any listing order and any lawful primitive, `Dataset(origin)` is built with the sizes of the rule, none empty |
| `Scenarios.FixtureDatasetScenario` | tests/test_builder.py:38-43 | on the fixture's five pairs the groups hold 3, 1 and 1 samples, so none is empty |

## Left out

- The behaviour of sklearn's `train_test_split` outside its contract is left out: the shuffle, the random generator seeded with `random_state=42`, and its exact ordering. It is a foreign call, so the model takes the primitive as a parameter and states only the partition and the size rule.
- The test sizes 0.2 and 0.25 are modelled as the exact fractions 1/5 and 1/4. Floating-point rounding of `test_size * n` is not modelled.
- `os.path.abspath` and the working directory are left out. The origin and `dataset/...` are paths in one tree whose root stands for the current directory.
- File names are single path segments. A name containing a separator is not modelled.
- Failures that come from the operating system rather than the file system's shape are left out: permissions, a full disk, I/O errors. The kinds of `OSError` are collapsed into five reasons.
- `os.listdir` gives no order, so the model leaves the order open. `Build` and `NewDataset` return it as a ghost `listing`, which enumerates the folder's entries.
- Datasets.Dataset.Build: says nothing about `itens` after a failure, because `__init__` raises and the object never reaches a caller. `SetGroups` states the partial table of a failure in the groups; `Construct` and `Datasets.ConstructAborts` state the file system.
- Datasets.ConstructDestinations: states only that every destination exists. Equal contents are proved per sample (`ImageLabels.MaterialiseSuccess`), because a later copy may overwrite an earlier one.
- ImageLabels.MaterialiseSuccess: states equal label contents only when neither the group nor the file name is "labels". Otherwise the image copy could in principle land on the label's source path.
- `ImageLabel.__str__` is left out: it is display formatting (src/dataset_builder/builder.py:35-36).
- `setup.py` is packaging metadata. Its numpy and opencv dependencies are unused by `builder.py`.
- The negative-sample generator is absent from `builder.py`, so there is nothing to model.
- The scenarios place the test fixture's `tmp_path` at the folder `tmp`, in a working directory that holds nothing else. Leftovers of earlier runs in `dataset/` are not modelled there; `Datasets.ConstructSucceeds` covers any layout with nothing in the way.
