/** The AVLetters video converter: lists the `train` and `validation` directories, separates the
    files into a training and a validation list, and writes each list as sharded TFRecord files
    whose examples carry a video and the class of its file's first letter. */
module LipsConvert {
  import opened Wrappers
  import opened Seqs
  import Paths
  import Shuffling
  import Sharding
  import ClassIds

  /** `to_tfexample(read_mat(path), class_id)`: the video data is the one read from `videoPath`. */
  datatype LipsExample = LipsExample(videoPath: string, classId: int)

  function GetTfrecordFilename(splitName: string, tfrecordDir: string, shardId: int, numShards: int): string
  {
    Sharding.ShardFileName("lips", splitName, tfrecordDir, shardId, numShards)
  }

  /** The shards of one split are written to distinct files. */
  lemma TfrecordFilenamesDistinct(splitName: string, tfrecordDir: string, a: int, b: int, numShards: int)
    ensures a != b ==> GetTfrecordFilename(splitName, tfrecordDir, a, numShards) != GetTfrecordFilename(splitName, tfrecordDir, b, numShards)
  {
    if GetTfrecordFilename(splitName, tfrecordDir, a, numShards) == GetTfrecordFilename(splitName, tfrecordDir, b, numShards) {
      Sharding.ShardFileNameInjective("lips", splitName, tfrecordDir, a, b, numShards);
    }
  }

  /** The example written for one file: its class is looked up from the first letter of its name. */
  function ToExample(classNamesToIds: map<string, int>, path: string): Result<LipsExample, PyError>
  {
    match ClassIds.ClassIdOf(classNamesToIds, path)
    case Failure(e) => Failure(e)
    case Success(classId) => Success(LipsExample(path, classId))
  }

  function Converter(classNamesToIds: map<string, int>): string -> Result<LipsExample, PyError>
  {
    path => ToExample(classNamesToIds, path)
  }

  function FileNamer(splitName: string, tfrecordDir: string, numShards: int): nat -> string
  {
    shardId => GetTfrecordFilename(splitName, tfrecordDir, shardId, numShards)
  }

  predicate IsSplitName(splitName: string) { splitName == "train" || splitName == "validation" }

  function ConvertDatasetResult(splitName: string, filePaths: seq<string>, classNamesToIds: map<string, int>,
                                tfrecordDir: string, numShards: int): Result<seq<Sharding.ShardFile<LipsExample>>, PyError>
  {
    if !IsSplitName(splitName) then Failure(AssertionError)
    else Sharding.WriteShardsResult(Converter(classNamesToIds), FileNamer(splitName, tfrecordDir, numShards),
                                    filePaths, numShards)
  }

  /** `convert_dataset`: the split name must be 'train' or 'validation'; then the shard loops. */
  method ConvertDataset(splitName: string, filePaths: seq<string>, classNamesToIds: map<string, int>,
                        tfrecordDir: string, numShards: int) returns (r: Result<seq<Sharding.ShardFile<LipsExample>>, PyError>)
    ensures r == ConvertDatasetResult(splitName, filePaths, classNamesToIds, tfrecordDir, numShards)
  {
    if !IsSplitName(splitName) {
      return Failure(AssertionError);
    }
    r := Sharding.WriteShards(Converter(classNamesToIds), FileNamer(splitName, tfrecordDir, numShards),
                              filePaths, numShards);
  }

  /** The examples written to the files of a split, file after file. */
  function Written(files: seq<Sharding.ShardFile<LipsExample>>): seq<LipsExample>
  {
    Flatten(Sharding.Records(files))
  }

  function WrittenPaths(files: seq<Sharding.ShardFile<LipsExample>>): seq<string>
  {
    Map((e: LipsExample) => e.videoPath, Written(files))
  }

  predicate AllClassified(classNamesToIds: map<string, int>, paths: seq<string>)
  {
    forall p :: p in paths ==> ClassIds.ClassIdOf(classNamesToIds, p).Success?
  }

  /** A split other than 'train' or 'validation' fails the assertion. With a valid split and a positive
      shard count the conversion succeeds exactly when every file's class can be looked up; then file
      `s` is named for shard `s`, holds at most `ceil(n / num_shards)` examples, and the files together
      hold one example per input file, in input order, with that file's class. */
  lemma ConvertDatasetWritesEachFileOnce(splitName: string, filePaths: seq<string>, classNamesToIds: map<string, int>,
                                         tfrecordDir: string, numShards: int)
    requires numShards > 0
    ensures !IsSplitName(splitName) ==>
              ConvertDatasetResult(splitName, filePaths, classNamesToIds, tfrecordDir, numShards) == Failure(AssertionError)
    ensures IsSplitName(splitName) ==>
              (ConvertDatasetResult(splitName, filePaths, classNamesToIds, tfrecordDir, numShards).Success? <==>
               AllClassified(classNamesToIds, filePaths))
    ensures var r := ConvertDatasetResult(splitName, filePaths, classNamesToIds, tfrecordDir, numShards);
            r.Success? ==>
              && |r.value| == numShards
              && (forall s :: 0 <= s < numShards ==>
                    r.value[s].name == GetTfrecordFilename(splitName, tfrecordDir, s, numShards) &&
                    |r.value[s].records| <= Sharding.CeilDiv(|filePaths|, numShards))
              && |Written(r.value)| == |filePaths|
              && (forall i :: 0 <= i < |filePaths| ==>
                    Written(r.value)[i] == LipsExample(filePaths[i], ClassIds.ClassIdOf(classNamesToIds, filePaths[i]).value))
              && WrittenPaths(r.value) == filePaths
  {
    if IsSplitName(splitName) {
      var convert := Converter(classNamesToIds);
      var fileName := FileNamer(splitName, tfrecordDir, numShards);
      Sharding.ConvertAllMeaning(convert, filePaths);
      var all := Sharding.ConvertAll(convert, filePaths);
      if all.Success? {
        Sharding.ShardFilesCover(fileName, all.value, numShards);
        assert forall i :: 0 <= i < |filePaths| ==> all.value[i] == LipsExample(filePaths[i], ClassIds.ClassIdOf(classNamesToIds, filePaths[i]).value);
      } else {
        var i :| 0 <= i < |filePaths| && convert(filePaths[i]) == Failure(all.error);
        assert filePaths[i] in filePaths;
      }
    }
  }

  datatype LipsSplit = LipsSplit(training: seq<string>, validation: seq<string>)

  /** The separation of `convert_lips`: 'user' keeps the two directories apart and shuffles each;
      'mixed' shuffles all files together and takes the last `num_val_samples` (by default as many
      as the validation directory holds) for validation; any other value fails the assertion. */
  function SeparateFiles(sep: string, numValSamples: Option<int>, trainingFiles: seq<string>, validationFiles: seq<string>,
                         trainingDraws: seq<nat>, validationDraws: seq<nat>): Result<LipsSplit, PyError>
  {
    if sep == "user" then
      Success(LipsSplit(Shuffling.Shuffle(trainingFiles, trainingDraws), Shuffling.Shuffle(validationFiles, validationDraws)))
    else if sep == "mixed" then
      var k := if numValSamples.None? then |validationFiles| else numValSamples.value;
      var all := Shuffling.Shuffle(trainingFiles + validationFiles, trainingDraws);
      Success(LipsSplit(Prefix(all, -k), Suffix(all, -k)))
    else Failure(AssertionError)
  }

  /** 'user': each list is a rearrangement of its own directory's files. */
  lemma UserSeparationPermutes(numValSamples: Option<int>, trainingFiles: seq<string>, validationFiles: seq<string>,
                               trainingDraws: seq<nat>, validationDraws: seq<nat>)
    ensures var r := SeparateFiles("user", numValSamples, trainingFiles, validationFiles, trainingDraws, validationDraws);
            r.Success? && multiset(r.value.training) == multiset(trainingFiles)
            && multiset(r.value.validation) == multiset(validationFiles)
  {
    Shuffling.ShufflePermutes(trainingFiles, trainingDraws);
    Shuffling.ShufflePermutes(validationFiles, validationDraws);
  }

  /** 'mixed': training followed by validation is the shuffled list of all files, so together they are
      a rearrangement of all files; `1 <= k <= total` puts exactly `k` files in validation, while
      `k == 0` (read by Python as `-0 == 0`) leaves training empty and puts everything in validation. */
  lemma MixedSeparation(numValSamples: Option<int>, trainingFiles: seq<string>, validationFiles: seq<string>,
                        trainingDraws: seq<nat>, validationDraws: seq<nat>)
    ensures var r := SeparateFiles("mixed", numValSamples, trainingFiles, validationFiles, trainingDraws, validationDraws);
            var k := if numValSamples.None? then |validationFiles| else numValSamples.value;
            var total := |trainingFiles| + |validationFiles|;
            && r.Success?
            && r.value.training + r.value.validation == Shuffling.Shuffle(trainingFiles + validationFiles, trainingDraws)
            && multiset(r.value.training + r.value.validation) == multiset(trainingFiles + validationFiles)
            && (1 <= k <= total ==> |r.value.validation| == k && |r.value.training| == total - k)
            && (k == 0 ==> r.value.training == [] && |r.value.validation| == total)
  {
    var k := if numValSamples.None? then |validationFiles| else numValSamples.value;
    var all := Shuffling.Shuffle(trainingFiles + validationFiles, trainingDraws);
    Shuffling.ShufflePermutes(trainingFiles + validationFiles, trainingDraws);
    PrefixSuffix(all, -k);
    NegativeSplit(all, k);
  }

  /** Only 'user' and 'mixed' are accepted. */
  lemma SeparationNeedsKnownMode(sep: string, numValSamples: Option<int>, trainingFiles: seq<string>, validationFiles: seq<string>,
                                 trainingDraws: seq<nat>, validationDraws: seq<nat>)
    ensures SeparateFiles(sep, numValSamples, trainingFiles, validationFiles, trainingDraws, validationDraws).Success? <==>
            (sep == "user" || sep == "mixed")
  {
  }

  /** Everything `convert_lips` writes: the two splits and the label file. */
  datatype LipsOutput = LipsOutput(train: seq<Sharding.ShardFile<LipsExample>>,
                                   validation: seq<Sharding.ShardFile<LipsExample>>,
                                   labels: map<int, string>)

  function ConvertLipsResult(fs: Paths.FileSystem, datasetDir: string, tfrecordDir: string, sep: string, numShards: int,
                             numValSamples: Option<int>, trainingDraws: seq<nat>, validationDraws: seq<nat>): Result<LipsOutput, PyError>
  {
    match Paths.ListPaths(fs, Paths.Join(datasetDir, "train"))
    case Failure(e) => Failure(e)
    case Success(trainingFiles) =>
      match Paths.ListPaths(fs, Paths.Join(datasetDir, "validation"))
      case Failure(e) => Failure(e)
      case Success(validationFiles) =>
        match SeparateFiles(sep, numValSamples, trainingFiles, validationFiles, trainingDraws, validationDraws)
        case Failure(e) => Failure(e)
        case Success(split) =>
          match ConvertDatasetResult("train", split.training, ClassIds.ClassNamesToIds(), tfrecordDir, numShards)
          case Failure(e) => Failure(e)
          case Success(train) =>
            match ConvertDatasetResult("validation", split.validation, ClassIds.ClassNamesToIds(), tfrecordDir, numShards)
            case Failure(e) => Failure(e)
            case Success(validation) => Success(LipsOutput(train, validation, ClassIds.LabelsToClassNames()))
  }

  /** `convert_lips`, with `random.shuffle`'s choices given as `trainingDraws` and `validationDraws`. */
  method ConvertLips(fs: Paths.FileSystem, datasetDir: string, tfrecordDir: string, sep: string, numShards: int,
                     numValSamples: Option<int>, trainingDraws: seq<nat>, validationDraws: seq<nat>)
    returns (r: Result<LipsOutput, PyError>)
    ensures r == ConvertLipsResult(fs, datasetDir, tfrecordDir, sep, numShards, numValSamples, trainingDraws, validationDraws)
  {
    var trainingFiles := Paths.ListPaths(fs, Paths.Join(datasetDir, "train"));
    if trainingFiles.Failure? {
      return Failure(trainingFiles.error);
    }
    var validationFiles := Paths.ListPaths(fs, Paths.Join(datasetDir, "validation"));
    if validationFiles.Failure? {
      return Failure(validationFiles.error);
    }
    var split := SeparateFiles(sep, numValSamples, trainingFiles.value, validationFiles.value, trainingDraws, validationDraws);
    if split.Failure? {
      return Failure(split.error);
    }
    var classNamesToIds := ClassIds.ClassNamesToIds();
    var train := ConvertDataset("train", split.value.training, classNamesToIds, tfrecordDir, numShards);
    if train.Failure? {
      return Failure(train.error);
    }
    var validation := ConvertDataset("validation", split.value.validation, classNamesToIds, tfrecordDir, numShards);
    if validation.Failure? {
      return Failure(validation.error);
    }
    return Success(LipsOutput(train.value, validation.value, ClassIds.LabelsToClassNames()));
  }

  /** A listed file converts exactly when its name starts with a capital letter. */
  lemma ListedFilesClassified(dir: string, names: seq<string>)
    requires Paths.IsListing(names)
    ensures AllClassified(ClassIds.ClassNamesToIds(), Map((name: string) => Paths.Join(dir, name), names)) <==>
            (forall name :: name in names ==> ClassIds.StartsWithCapital(name))
  {
    var paths := Map((name: string) => Paths.Join(dir, name), names);
    forall i | 0 <= i < |names|
      ensures ClassIds.ClassIdOf(ClassIds.ClassNamesToIds(), paths[i]).Success? <==> ClassIds.StartsWithCapital(names[i])
    {
      assert names[i] in names;
      Paths.BasenameOfJoin(dir, names[i]);
      ClassIds.ClassIdOfLetter(paths[i]);
    }
    if AllClassified(ClassIds.ClassNamesToIds(), paths) {
      forall name | name in names ensures ClassIds.StartsWithCapital(name) {
        var i :| 0 <= i < |names| && names[i] == name;
        assert paths[i] in paths;
      }
    }
    if forall name :: name in names ==> ClassIds.StartsWithCapital(name) {
      forall p | p in paths ensures ClassIds.ClassIdOf(ClassIds.ClassNamesToIds(), p).Success? {
        var i :| 0 <= i < |paths| && paths[i] == p;
        assert names[i] in names;
      }
    }
  }

  lemma AllClassifiedPermutation(ids: map<string, int>, a: seq<string>, b: seq<string>)
    requires multiset(a) == multiset(b)
    ensures AllClassified(ids, a) <==> AllClassified(ids, b)
  {
    forall p | p in a ensures p in b { assert p in multiset(a); }
    forall p | p in b ensures p in a { assert p in multiset(b); }
  }

  lemma AllClassifiedConcat(ids: map<string, int>, a: seq<string>, b: seq<string>)
    ensures AllClassified(ids, a + b) <==> AllClassified(ids, a) && AllClassified(ids, b)
  {
  }

  /** With both directories listed and a positive shard count, `convert_lips` succeeds exactly when
      every listed file name starts with a capital letter. Then every listed file is converted exactly
      once, into the training or the validation split ('user' keeps each directory's files in its own
      split), and the label file maps each id 0..25 to its letter. */
  lemma ConvertLipsConvertsEveryListedFile(fs: Paths.FileSystem, datasetDir: string, tfrecordDir: string, sep: string,
                                           numShards: int, numValSamples: Option<int>,
                                           trainingDraws: seq<nat>, validationDraws: seq<nat>)
    requires Paths.Join(datasetDir, "train") in fs && Paths.IsListing(fs[Paths.Join(datasetDir, "train")])
    requires Paths.Join(datasetDir, "validation") in fs && Paths.IsListing(fs[Paths.Join(datasetDir, "validation")])
    requires sep == "user" || sep == "mixed"
    requires numShards > 0
    ensures var r := ConvertLipsResult(fs, datasetDir, tfrecordDir, sep, numShards, numValSamples, trainingDraws, validationDraws);
            var trainingNames := fs[Paths.Join(datasetDir, "train")];
            var validationNames := fs[Paths.Join(datasetDir, "validation")];
            var trainingFiles := Paths.ListPaths(fs, Paths.Join(datasetDir, "train")).value;
            var validationFiles := Paths.ListPaths(fs, Paths.Join(datasetDir, "validation")).value;
            && (r.Success? <==> forall name :: name in trainingNames + validationNames ==> ClassIds.StartsWithCapital(name))
            && (r.Success? ==>
                  && multiset(WrittenPaths(r.value.train) + WrittenPaths(r.value.validation)) == multiset(trainingFiles + validationFiles)
                  && r.value.labels == ClassIds.LabelsToClassNames())
            && (r.Success? && sep == "user" ==>
                  && multiset(WrittenPaths(r.value.train)) == multiset(trainingFiles)
                  && multiset(WrittenPaths(r.value.validation)) == multiset(validationFiles))
  {
    var ids := ClassIds.ClassNamesToIds();
    var trainDir, validationDir := Paths.Join(datasetDir, "train"), Paths.Join(datasetDir, "validation");
    var trainingFiles := Paths.ListPaths(fs, trainDir).value;
    var validationFiles := Paths.ListPaths(fs, validationDir).value;
    var split := SeparateFiles(sep, numValSamples, trainingFiles, validationFiles, trainingDraws, validationDraws);
    assert split.Success?;
    var training, validation := split.value.training, split.value.validation;
    if sep == "user" {
      UserSeparationPermutes(numValSamples, trainingFiles, validationFiles, trainingDraws, validationDraws);
    } else {
      MixedSeparation(numValSamples, trainingFiles, validationFiles, trainingDraws, validationDraws);
    }
    TwoSplitsWritten(training, validation, trainingFiles, validationFiles, tfrecordDir, numShards);
    AllClassifiedConcat(ids, trainingFiles, validationFiles);
    ListedFilesClassified(trainDir, fs[trainDir]);
    ListedFilesClassified(validationDir, fs[validationDir]);
  }

  /** Converting a rearrangement of the listed files into the two splits succeeds exactly when every
      listed file is classified, and then writes each listed file once. */
  lemma TwoSplitsWritten(training: seq<string>, validation: seq<string>, trainingFiles: seq<string>,
                         validationFiles: seq<string>, tfrecordDir: string, numShards: int)
    requires numShards > 0
    requires multiset(training + validation) == multiset(trainingFiles + validationFiles)
    ensures var ids := ClassIds.ClassNamesToIds();
            var rt := ConvertDatasetResult("train", training, ids, tfrecordDir, numShards);
            var rv := ConvertDatasetResult("validation", validation, ids, tfrecordDir, numShards);
            && (rt.Success? && rv.Success? <==> AllClassified(ids, trainingFiles + validationFiles))
            && (rt.Success? ==> WrittenPaths(rt.value) == training)
            && (rv.Success? ==> WrittenPaths(rv.value) == validation)
  {
    var ids := ClassIds.ClassNamesToIds();
    ConvertDatasetWritesEachFileOnce("train", training, ids, tfrecordDir, numShards);
    ConvertDatasetWritesEachFileOnce("validation", validation, ids, tfrecordDir, numShards);
    AllClassifiedConcat(ids, training, validation);
    AllClassifiedPermutation(ids, training + validation, trainingFiles + validationFiles);
  }
}
