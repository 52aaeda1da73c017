/** The AVLetters audio-visual converter for the transfer-learning experiment: pairs the sorted
    MFCC files with the sorted video files of each directory, shuffles the pairs, splits off the
    last `num_val_samples` for validation, divides both parts by the first letter of the audio
    file (A..T or U..Z), and writes the six lists as sharded TFRecord files. */
module MfccLipsConvert {
  import opened Wrappers
  import opened Seqs
  import Paths
  import Sorting
  import Shuffling
  import Sharding
  import ClassIds

  /** One entry of `filename_pairs`: the tuple `(audio_path, video_path)`. */
  datatype PathPair = PathPair(audio: string, video: string)

  /** `to_tfexample(mfcc_data, video_data, class_id)`: the MFCC features are the ones parsed from
      `audioPath`, the video data the one read from `videoPath`. */
  datatype MfccLipsExample = MfccLipsExample(audioPath: string, videoPath: string, classId: int)

  function GetTfrecordFilename(splitName: string, tfrecordDir: string, shardId: int, numShards: int): string
  {
    Sharding.ShardFileName("mfcc_lips", splitName, tfrecordDir, shardId, numShards)
  }

  /** The shards of one split are written to distinct files. */
  lemma TfrecordFilenamesDistinct(splitName: string, tfrecordDir: string, a: int, b: int, numShards: int)
    ensures a != b ==> GetTfrecordFilename(splitName, tfrecordDir, a, numShards) != GetTfrecordFilename(splitName, tfrecordDir, b, numShards)
  {
    if GetTfrecordFilename(splitName, tfrecordDir, a, numShards) == GetTfrecordFilename(splitName, tfrecordDir, b, numShards) {
      Sharding.ShardFileNameInjective("mfcc_lips", splitName, tfrecordDir, a, b, numShards);
    }
  }

  /** The example written for one pair: its class comes from the first letter of the audio file's name. */
  function ToExample(classNamesToIds: map<string, int>, pair: PathPair): Result<MfccLipsExample, PyError>
  {
    match ClassIds.ClassIdOf(classNamesToIds, pair.audio)
    case Failure(e) => Failure(e)
    case Success(classId) => Success(MfccLipsExample(pair.audio, pair.video, classId))
  }

  function Converter(classNamesToIds: map<string, int>): PathPair -> Result<MfccLipsExample, PyError>
  {
    pair => ToExample(classNamesToIds, pair)
  }

  function FileNamer(splitName: string, tfrecordDir: string, numShards: int): nat -> string
  {
    shardId => GetTfrecordFilename(splitName, tfrecordDir, shardId, numShards)
  }

  function ConvertDatasetResult(splitName: string, filepathPairs: seq<PathPair>, classNamesToIds: map<string, int>,
                                tfrecordDir: string, numShards: int): Result<seq<Sharding.ShardFile<MfccLipsExample>>, PyError>
  {
    Sharding.WriteShardsResult(Converter(classNamesToIds), FileNamer(splitName, tfrecordDir, numShards),
                               filepathPairs, numShards)
  }

  /** `convert_dataset`: the shard loops over the pairs; any split name is accepted. */
  method ConvertDataset(splitName: string, filepathPairs: seq<PathPair>, classNamesToIds: map<string, int>,
                        tfrecordDir: string, numShards: int) returns (r: Result<seq<Sharding.ShardFile<MfccLipsExample>>, PyError>)
    ensures r == ConvertDatasetResult(splitName, filepathPairs, classNamesToIds, tfrecordDir, numShards)
  {
    r := Sharding.WriteShards(Converter(classNamesToIds), FileNamer(splitName, tfrecordDir, numShards),
                              filepathPairs, numShards);
  }

  /** The examples written to the files of a split, file after file. */
  function Written(files: seq<Sharding.ShardFile<MfccLipsExample>>): seq<MfccLipsExample>
  {
    Flatten(Sharding.Records(files))
  }

  function WrittenPairs(files: seq<Sharding.ShardFile<MfccLipsExample>>): seq<PathPair>
  {
    Map((e: MfccLipsExample) => PathPair(e.audioPath, e.videoPath), Written(files))
  }

  predicate Classified(classNamesToIds: map<string, int>, pair: PathPair)
  {
    ClassIds.ClassIdOf(classNamesToIds, pair.audio).Success?
  }

  predicate AllClassified(classNamesToIds: map<string, int>, pairs: seq<PathPair>)
  {
    forall p :: p in pairs ==> Classified(classNamesToIds, p)
  }

  /** With a positive shard count the conversion succeeds exactly when every pair's audio file has
      a class; then file `s` is named for shard `s`, holds at most `ceil(n / num_shards)` examples,
      and the files together hold one example per pair, in order, with the audio file's class. */
  lemma ConvertDatasetWritesEachPairOnce(splitName: string, filepathPairs: seq<PathPair>, classNamesToIds: map<string, int>,
                                         tfrecordDir: string, numShards: int)
    requires numShards > 0
    ensures var r := ConvertDatasetResult(splitName, filepathPairs, classNamesToIds, tfrecordDir, numShards);
            && (r.Success? <==> AllClassified(classNamesToIds, filepathPairs))
            && (r.Success? ==>
                  && |r.value| == numShards
                  && (forall s :: 0 <= s < numShards ==>
                        r.value[s].name == GetTfrecordFilename(splitName, tfrecordDir, s, numShards) &&
                        |r.value[s].records| <= Sharding.CeilDiv(|filepathPairs|, numShards))
                  && |Written(r.value)| == |filepathPairs|
                  && (forall i :: 0 <= i < |filepathPairs| ==>
                        Written(r.value)[i].audioPath == filepathPairs[i].audio &&
                        Written(r.value)[i].videoPath == filepathPairs[i].video &&
                        ClassIds.ClassIdOf(classNamesToIds, filepathPairs[i].audio) == Success(Written(r.value)[i].classId))
                  && WrittenPairs(r.value) == filepathPairs)
  {
    var convert := Converter(classNamesToIds);
    var fileName := FileNamer(splitName, tfrecordDir, numShards);
    Sharding.ConvertAllMeaning(convert, filepathPairs);
    var all := Sharding.ConvertAll(convert, filepathPairs);
    if all.Success? {
      Sharding.ShardFilesCover(fileName, all.value, numShards);
      assert forall i :: 0 <= i < |filepathPairs| ==>
        all.value[i] == MfccLipsExample(filepathPairs[i].audio, filepathPairs[i].video,
                                        ClassIds.ClassIdOf(classNamesToIds, filepathPairs[i].audio).value);
    } else {
      var i :| 0 <= i < |filepathPairs| && convert(filepathPairs[i]) == Failure(all.error);
      assert filepathPairs[i] in filepathPairs;
    }
  }

  /** `list(zip(sorted(audio), sorted(video)))`: the i-th audio file in name order goes with the
      i-th video file in name order; files beyond the shorter list are dropped. */
  function PairUp(audioFilenames: seq<string>, videoFilenames: seq<string>): seq<PathPair>
  {
    Map((av: (string, string)) => PathPair(av.0, av.1), Zip(Sorting.Sort(audioFilenames), Sorting.Sort(videoFilenames)))
  }

  /** The pairing depends only on which files are listed, not on the order `os.listdir` gives them:
      for any sorted arrangements of the two listings, pair `i` is their `i`-th items. The audio
      paths of the pairs are in name order, and when both directories hold equally many files every
      listed audio file is in exactly one pair. */
  lemma PairUpByRank(audioFilenames: seq<string>, videoFilenames: seq<string>,
                     sortedAudio: seq<string>, sortedVideo: seq<string>)
    requires Sorting.Sorted(sortedAudio) && multiset(sortedAudio) == multiset(audioFilenames)
    requires Sorting.Sorted(sortedVideo) && multiset(sortedVideo) == multiset(videoFilenames)
    ensures |sortedAudio| == |audioFilenames| && |sortedVideo| == |videoFilenames|
    ensures var r := PairUp(audioFilenames, videoFilenames);
            && |r| == Min(|audioFilenames|, |videoFilenames|)
            && (forall i :: 0 <= i < |r| ==> r[i] == PathPair(sortedAudio[i], sortedVideo[i]))
            && (forall i, j :: 0 <= i < j < |r| ==> Sorting.LexLe(r[i].audio, r[j].audio))
            && (|audioFilenames| == |videoFilenames| ==>
                  multiset(Map((p: PathPair) => p.audio, r)) == multiset(audioFilenames) &&
                  multiset(Map((p: PathPair) => p.video, r)) == multiset(videoFilenames))
  {
    Sorting.SortedUnique(Sorting.Sort(audioFilenames), sortedAudio);
    Sorting.SortedUnique(Sorting.Sort(videoFilenames), sortedVideo);
    var r := PairUp(audioFilenames, videoFilenames);
    assert |sortedAudio| == |audioFilenames| by { assert |multiset(sortedAudio)| == |multiset(audioFilenames)|; }
    assert |sortedVideo| == |videoFilenames| by { assert |multiset(sortedVideo)| == |multiset(videoFilenames)|; }
    if |audioFilenames| == |videoFilenames| {
      assert Map((p: PathPair) => p.audio, r) == sortedAudio;
      assert Map((p: PathPair) => p.video, r) == sortedVideo;
    }
  }

  /** One iteration of the pairing loop: list and sort the audio directory, then the video directory. */
  function SplitPairs(fs: Paths.FileSystem, datasetDirAudio: string, datasetDirVideo: string, splitName: string)
    : Result<seq<PathPair>, PyError>
  {
    match Paths.ListPaths(fs, Paths.Join(datasetDirAudio, splitName))
    case Failure(e) => Failure(e)
    case Success(audioFilenames) =>
      match Paths.ListPaths(fs, Paths.Join(datasetDirVideo, splitName))
      case Failure(e) => Failure(e)
      case Success(videoFilenames) => Success(PairUp(audioFilenames, videoFilenames))
  }

  function SplitPairer(fs: Paths.FileSystem, datasetDirAudio: string, datasetDirVideo: string)
    : string -> Result<seq<PathPair>, PyError>
  {
    splitName => SplitPairs(fs, datasetDirAudio, datasetDirVideo, splitName)
  }

  function DirectoryNames(): seq<string> { ["train", "validation"] }

  /** `filename_pairs` after the loop: the pairs of 'train' followed by those of 'validation',
      or the first listing that fails. */
  function CollectPairsResult(fs: Paths.FileSystem, datasetDirAudio: string, datasetDirVideo: string)
    : Result<seq<PathPair>, PyError>
  {
    match Sharding.ConvertAll(SplitPairer(fs, datasetDirAudio, datasetDirVideo), DirectoryNames())
    case Failure(e) => Failure(e)
    case Success(perSplit) => Success(Flatten(perSplit))
  }

  /** The loop over 'train' and 'validation' that extends `filename_pairs`. */
  method CollectPairs(fs: Paths.FileSystem, datasetDirAudio: string, datasetDirVideo: string)
    returns (r: Result<seq<PathPair>, PyError>)
    ensures r == CollectPairsResult(fs, datasetDirAudio, datasetDirVideo)
  {
    var splitNames := DirectoryNames();
    var pairer := SplitPairer(fs, datasetDirAudio, datasetDirVideo);
    var filenamePairs: seq<PathPair> := [];
    ghost var perSplit: seq<seq<PathPair>> := [];
    var i := 0;
    while i < |splitNames|
      invariant 0 <= i <= |splitNames|
      invariant Sharding.ConvertAll(pairer, splitNames[..i]) == Success(perSplit)
      invariant filenamePairs == Flatten(perSplit)
    {
      var dirname := Paths.Join(datasetDirAudio, splitNames[i]);
      var audioFilenames := Paths.ListPaths(fs, dirname);
      if audioFilenames.Failure? {
        assert pairer(splitNames[i]) == Failure(audioFilenames.error);
        Sharding.ConvertAllStep(pairer, splitNames, i, perSplit);
        return Failure(audioFilenames.error);
      }
      dirname := Paths.Join(datasetDirVideo, splitNames[i]);
      var videoFilenames := Paths.ListPaths(fs, dirname);
      if videoFilenames.Failure? {
        assert pairer(splitNames[i]) == Failure(videoFilenames.error);
        Sharding.ConvertAllStep(pairer, splitNames, i, perSplit);
        return Failure(videoFilenames.error);
      }
      var pairs := PairUp(audioFilenames.value, videoFilenames.value);
      assert pairer(splitNames[i]) == Success(pairs);
      Sharding.ConvertAllStep(pairer, splitNames, i, perSplit);
      FlattenAppend(perSplit, pairs);
      perSplit := perSplit + [pairs];
      filenamePairs := filenamePairs + pairs;
      i := i + 1;
    }
    assert splitNames[..i] == splitNames;
    return Success(filenamePairs);
  }

  /** With all four directories present, the pairs are those of 'train' followed by those of 'validation'. */
  lemma SplitPairsSucceed(fs: Paths.FileSystem, datasetDirAudio: string, datasetDirVideo: string, splitName: string)
    requires Paths.Join(datasetDirAudio, splitName) in fs && Paths.Join(datasetDirVideo, splitName) in fs
    ensures SplitPairs(fs, datasetDirAudio, datasetDirVideo, splitName).Success?
  {
  }

  lemma CollectPairsConcatenates(fs: Paths.FileSystem, datasetDirAudio: string, datasetDirVideo: string)
    requires Paths.Join(datasetDirAudio, "train") in fs && Paths.Join(datasetDirVideo, "train") in fs
    requires Paths.Join(datasetDirAudio, "validation") in fs && Paths.Join(datasetDirVideo, "validation") in fs
    ensures var r := CollectPairsResult(fs, datasetDirAudio, datasetDirVideo);
            r.Success? &&
            r.value == SplitPairs(fs, datasetDirAudio, datasetDirVideo, "train").value +
                       SplitPairs(fs, datasetDirAudio, datasetDirVideo, "validation").value
  {
    var pairer := SplitPairer(fs, datasetDirAudio, datasetDirVideo);
    SplitPairsSucceed(fs, datasetDirAudio, datasetDirVideo, "train");
    SplitPairsSucceed(fs, datasetDirAudio, datasetDirVideo, "validation");
    Sharding.ConvertAllTwo(pairer, "train", "validation");
    FlattenTwo(pairer("train").value, pairer("validation").value);
  }

  /** `'U' <= os.path.basename(p[0])[0] <= 'Z'`, for a pair whose audio file name is not empty. */
  predicate InUZ(p: PathPair) { AudioLetterIn(p, 'U', 'Z') }

  /** The audio file's name starts with a letter from `lo` to `hi`. */
  predicate AudioLetterIn(p: PathPair, lo: char, hi: char)
  {
    var name := Paths.Basename(p.audio);
    name != "" && lo <= name[0] <= hi
  }

  predicate InAT(p: PathPair) { !InUZ(p) }

  predicate HasAudioName(p: PathPair) { Paths.Basename(p.audio) != "" }

  /** The letter test indexes the audio file's name, which raises `IndexError` when it is empty;
      otherwise the A..T pairs and the U..Z pairs, each in their original order. */
  function PartitionResult(pairs: seq<PathPair>): Result<(seq<PathPair>, seq<PathPair>), PyError>
  {
    if forall p :: p in pairs ==> HasAudioName(p) then Success((Filter(InAT, pairs), Filter(InUZ, pairs)))
    else Failure(IndexError)
  }

  /** The loop that appends each pair to the A..T or the U..Z list. */
  method PartitionByLetter(pairs: seq<PathPair>) returns (r: Result<(seq<PathPair>, seq<PathPair>), PyError>)
    ensures r == PartitionResult(pairs)
  {
    var atPairs: seq<PathPair> := [];
    var uzPairs: seq<PathPair> := [];
    var i := 0;
    while i < |pairs|
      invariant 0 <= i <= |pairs|
      invariant LetterSplit(pairs[..i]) == Success((atPairs, uzPairs))
    {
      var p := pairs[i];
      assert pairs[..i + 1][..i] == pairs[..i] && pairs[..i + 1][i] == p;
      var name := Paths.Basename(p.audio);
      if name == "" {
        LetterSplitPrefixFailure(pairs, i + 1);
        LetterSplitFilters(pairs);
        return Failure(IndexError);
      }
      if 'U' <= name[0] <= 'Z' {
        uzPairs := uzPairs + [p];
      } else {
        atPairs := atPairs + [p];
      }
      i := i + 1;
    }
    assert pairs[..i] == pairs;
    LetterSplitFilters(pairs);
    return Success((atPairs, uzPairs));
  }

  /** The loop's own recurrence: the pairs before the last one are divided first, then the last
      one goes to the end of the list its letter selects, or its empty name raises `IndexError`. */
  function LetterSplit(pairs: seq<PathPair>): Result<(seq<PathPair>, seq<PathPair>), PyError>
  {
    if pairs == [] then Success(([], []))
    else
      match LetterSplit(pairs[..|pairs| - 1])
      case Failure(e) => Failure(e)
      case Success(lists) =>
        var p := pairs[|pairs| - 1];
        var name := Paths.Basename(p.audio);
        if name == "" then Failure(IndexError)
        else if 'U' <= name[0] <= 'Z' then Success((lists.0, lists.1 + [p]))
        else Success((lists.0 + [p], lists.1))
  }

  /** Once a prefix fails, the whole list fails the same way. */
  lemma {:induction false} LetterSplitPrefixFailure(pairs: seq<PathPair>, n: nat)
    requires n <= |pairs| && LetterSplit(pairs[..n]).Failure?
    ensures LetterSplit(pairs) == LetterSplit(pairs[..n])
    decreases |pairs| - n
  {
    if n < |pairs| {
      assert pairs[..n + 1][..n] == pairs[..n];
      LetterSplitPrefixFailure(pairs, n + 1);
    } else {
      assert pairs[..n] == pairs;
    }
  }

  /** The item-by-item division agrees with the filter definition: it fails exactly when some audio
      file name is empty, and otherwise yields the A..T and the U..Z pairs in their original order. */
  lemma {:induction false} LetterSplitFilters(pairs: seq<PathPair>)
    ensures LetterSplit(pairs) == PartitionResult(pairs)
  {
    if pairs != [] {
      var init, last := pairs[..|pairs| - 1], pairs[|pairs| - 1];
      LetterSplitFilters(init);
      assert pairs == init + [last];
      assert last in pairs;
      if forall p :: p in init ==> HasAudioName(p) {
        if HasAudioName(last) {
          forall p | p in pairs ensures HasAudioName(p) {
            assert p in init || p == last;
          }
          assert PartitionResult(pairs) == Success((Filter(InAT, pairs), Filter(InUZ, pairs)));
          assert Filter(InAT, pairs) == Filter(InAT, init) + (if InAT(last) then [last] else []);
          assert Filter(InUZ, pairs) == Filter(InUZ, init) + (if InUZ(last) then [last] else []);
          assert Filter(InAT, init) + [] == Filter(InAT, init) && Filter(InUZ, init) + [] == Filter(InUZ, init);
          assert LetterSplit(init) == Success((Filter(InAT, init), Filter(InUZ, init)));
          var name := Paths.Basename(last.audio);
          assert InUZ(last) <==> 'U' <= name[0] <= 'Z';
          assert LetterSplit(pairs) == if InUZ(last) then Success((Filter(InAT, init), Filter(InUZ, init) + [last]))
                                       else Success((Filter(InAT, init) + [last], Filter(InUZ, init)));
        }
      } else {
        var q :| q in init && !HasAudioName(q);
        assert q in pairs;
      }
    }
  }

  /** The two lists hold every pair of the input exactly once between them, the U..Z list only pairs
      whose audio file name starts with 'U'..'Z', the A..T list only the others; each list keeps the
      input order: cutting the input in two cuts each list into the lists of the two pieces. */
  lemma PartitionSplitsByLetter(pairs: seq<PathPair>)
    ensures PartitionResult(pairs).Success? <==> forall p :: p in pairs ==> HasAudioName(p)
    ensures var r := PartitionResult(pairs);
            r.Success? ==>
              && multiset(r.value.0) + multiset(r.value.1) == multiset(pairs)
              && |r.value.0| + |r.value.1| == |pairs|
              && (forall p :: p in r.value.1 ==> p in pairs && AudioLetterIn(p, 'U', 'Z'))
              && (forall p :: p in r.value.0 ==> p in pairs && HasAudioName(p) && !AudioLetterIn(p, 'U', 'Z'))
              && r.value == (Filter(InAT, pairs), Filter(InUZ, pairs))
              && (forall a, b :: pairs == a + b ==>
                    r.value.0 == Filter(InAT, a) + Filter(InAT, b) && r.value.1 == Filter(InUZ, a) + Filter(InUZ, b))
  {
    FilterPartition(InAT, InUZ, pairs);
    forall a, b | pairs == a + b
      ensures Filter(InAT, pairs) == Filter(InAT, a) + Filter(InAT, b)
      ensures Filter(InUZ, pairs) == Filter(InUZ, a) + Filter(InUZ, b)
    {
      FilterAppend(InAT, a, b);
      FilterAppend(InUZ, a, b);
    }
  }

  /** The six parts, in the order they are written. */
  function SplitNames(): seq<string>
  {
    ["train_all", "trainAT", "trainUZ", "validation", "validationAT", "validationUZ"]
  }

  /** The files written for one part, under its split name. */
  datatype SplitOutput = SplitOutput(splitName: string, files: seq<Sharding.ShardFile<MfccLipsExample>>)

  function ConvertSplit(classNamesToIds: map<string, int>, tfrecordDir: string, numShards: int,
                        part: (string, seq<PathPair>)): Result<SplitOutput, PyError>
  {
    match ConvertDatasetResult(part.0, part.1, classNamesToIds, tfrecordDir, numShards)
    case Failure(e) => Failure(e)
    case Success(files) => Success(SplitOutput(part.0, files))
  }

  function SplitConverter(classNamesToIds: map<string, int>, tfrecordDir: string, numShards: int)
    : ((string, seq<PathPair>)) -> Result<SplitOutput, PyError>
  {
    part => ConvertSplit(classNamesToIds, tfrecordDir, numShards, part)
  }

  /** `for i in range(6): convert_dataset(split_names[i], pairs[i], ...)`, stopping at the first exception. */
  method ConvertSplits(splitNames: seq<string>, pairs: seq<seq<PathPair>>, classNamesToIds: map<string, int>,
                       tfrecordDir: string, numShards: int) returns (r: Result<seq<SplitOutput>, PyError>)
    requires |splitNames| == |pairs|
    ensures r == Sharding.ConvertAll(SplitConverter(classNamesToIds, tfrecordDir, numShards), Zip(splitNames, pairs))
  {
    var parts := Zip(splitNames, pairs);
    var convert := SplitConverter(classNamesToIds, tfrecordDir, numShards);
    var outputs: seq<SplitOutput> := [];
    var i := 0;
    while i < |splitNames|
      invariant 0 <= i <= |splitNames|
      invariant Sharding.ConvertAll(convert, parts[..i]) == Success(outputs)
    {
      assert parts[..i + 1][..i] == parts[..i];
      assert parts[..i + 1][i] == parts[i] == (splitNames[i], pairs[i]);
      var files := ConvertDataset(splitNames[i], pairs[i], classNamesToIds, tfrecordDir, numShards);
      if files.Failure? {
        Sharding.ConvertAllPrefixFailure(convert, parts, i + 1);
        return Failure(files.error);
      }
      outputs := outputs + [SplitOutput(splitNames[i], files.value)];
      i := i + 1;
    }
    assert parts[..i] == parts;
    return Success(outputs);
  }

  /** Everything `convert_mfcc_lips` writes: the six parts and the label file. */
  datatype MfccLipsOutput = MfccLipsOutput(splits: seq<SplitOutput>, labels: map<int, string>)

  /** The lists handed to the six conversions: the shuffled pairs split at `-num_val_samples`, and each
      half divided by letter. */
  function PartsResult(pairs: seq<PathPair>, numValSamples: int, draws: seq<nat>): Result<seq<seq<PathPair>>, PyError>
  {
    var shuffled := Shuffling.Shuffle(pairs, draws);
    var trainingPairs := Prefix(shuffled, -numValSamples);
    var validationPairs := Suffix(shuffled, -numValSamples);
    match PartitionResult(trainingPairs)
    case Failure(e) => Failure(e)
    case Success(train) =>
      match PartitionResult(validationPairs)
      case Failure(e) => Failure(e)
      case Success(validation) => Success([trainingPairs, train.0, train.1, validationPairs, validation.0, validation.1])
  }

  function ConvertMfccLipsResult(fs: Paths.FileSystem, datasetDirAudio: string, datasetDirVideo: string,
                                 tfrecordDir: string, numShards: int, numValSamples: int, draws: seq<nat>)
    : Result<MfccLipsOutput, PyError>
  {
    match CollectPairsResult(fs, datasetDirAudio, datasetDirVideo)
    case Failure(e) => Failure(e)
    case Success(pairs) =>
      match PartsResult(pairs, numValSamples, draws)
      case Failure(e) => Failure(e)
      case Success(parts) =>
        match Sharding.ConvertAll(SplitConverter(ClassIds.ClassNamesToIds(), tfrecordDir, numShards), Zip(SplitNames(), parts))
        case Failure(e) => Failure(e)
        case Success(outputs) => Success(MfccLipsOutput(outputs, ClassIds.LabelsToClassNames()))
  }

  /** `convert_mfcc_lips`, with `random.shuffle`'s choices given as `draws`. */
  method ConvertMfccLips(fs: Paths.FileSystem, datasetDirAudio: string, datasetDirVideo: string,
                         tfrecordDir: string, numShards: int, numValSamples: int, draws: seq<nat>)
    returns (r: Result<MfccLipsOutput, PyError>)
    ensures r == ConvertMfccLipsResult(fs, datasetDirAudio, datasetDirVideo, tfrecordDir, numShards, numValSamples, draws)
  {
    var filenamePairs := CollectPairs(fs, datasetDirAudio, datasetDirVideo);
    if filenamePairs.Failure? {
      return Failure(filenamePairs.error);
    }
    var classNamesToIds := ClassIds.ClassNamesToIds();
    var shuffled := Shuffling.Shuffle(filenamePairs.value, draws);
    var trainingPairs := Prefix(shuffled, -numValSamples);
    var validationPairs := Suffix(shuffled, -numValSamples);
    var train := PartitionByLetter(trainingPairs);
    if train.Failure? {
      return Failure(train.error);
    }
    var validation := PartitionByLetter(validationPairs);
    if validation.Failure? {
      return Failure(validation.error);
    }
    var pairs := [trainingPairs, train.value.0, train.value.1, validationPairs, validation.value.0, validation.value.1];
    var outputs := ConvertSplits(SplitNames(), pairs, classNamesToIds, tfrecordDir, numShards);
    if outputs.Failure? {
      return Failure(outputs.error);
    }
    return Success(MfccLipsOutput(outputs.value, ClassIds.LabelsToClassNames()));
  }

  /** The six-part loop succeeds exactly when every part's pairs all have a class, and then gives
      each part under its own name, its files holding exactly that part's pairs in order. */
  lemma {:induction false} SplitsWritePairs(splitNames: seq<string>, pairs: seq<seq<PathPair>>, classNamesToIds: map<string, int>,
                                            tfrecordDir: string, numShards: int)
    requires |splitNames| == |pairs| && numShards > 0
    ensures var r := Sharding.ConvertAll(SplitConverter(classNamesToIds, tfrecordDir, numShards), Zip(splitNames, pairs));
            && (r.Success? <==> forall i :: 0 <= i < |pairs| ==> AllClassified(classNamesToIds, pairs[i]))
            && (r.Success? ==>
                  |r.value| == |pairs| &&
                  forall i :: 0 <= i < |pairs| ==> r.value[i].splitName == splitNames[i] && WrittenPairs(r.value[i].files) == pairs[i])
  {
    var convert := SplitConverter(classNamesToIds, tfrecordDir, numShards);
    var parts := Zip(splitNames, pairs);
    Sharding.ConvertAllMeaning(convert, parts);
    forall i | 0 <= i < |pairs|
      ensures convert(parts[i]).Success? <==> AllClassified(classNamesToIds, pairs[i])
      ensures convert(parts[i]).Success? ==>
                convert(parts[i]).value.splitName == splitNames[i] && WrittenPairs(convert(parts[i]).value.files) == pairs[i]
    {
      ConvertDatasetWritesEachPairOnce(splitNames[i], pairs[i], classNamesToIds, tfrecordDir, numShards);
    }
  }

  /** `shuffled[:-k]` followed by `shuffled[-k:]` is the shuffled list, a rearrangement of all pairs;
      `1 <= k <= n` puts exactly `k` pairs in validation and `k == 0` (Python's `-0 == 0`) all of them. */
  lemma SplitAtValidation(pairs: seq<PathPair>, numValSamples: int, draws: seq<nat>)
    ensures var shuffled := Shuffling.Shuffle(pairs, draws);
            var training := Prefix(shuffled, -numValSamples);
            var validation := Suffix(shuffled, -numValSamples);
            && training + validation == shuffled
            && multiset(training + validation) == multiset(pairs)
            && (forall p :: p in pairs <==> p in training || p in validation)
            && (1 <= numValSamples <= |pairs| ==> |validation| == numValSamples)
            && (numValSamples == 0 ==> training == [] && |validation| == |pairs|)
  {
    var shuffled := Shuffling.Shuffle(pairs, draws);
    var training := Prefix(shuffled, -numValSamples);
    var validation := Suffix(shuffled, -numValSamples);
    Shuffling.ShufflePermutes(pairs, draws);
    PrefixSuffix(shuffled, -numValSamples);
    NegativeSplit(shuffled, numValSamples);
    SplitMembership(pairs, numValSamples, draws);
  }

  /** A pair is in the input exactly when it is in one of the two halves. */
  lemma SplitMembership(pairs: seq<PathPair>, numValSamples: int, draws: seq<nat>)
    ensures var shuffled := Shuffling.Shuffle(pairs, draws);
            forall p :: p in pairs <==> p in Prefix(shuffled, -numValSamples) || p in Suffix(shuffled, -numValSamples)
  {
    var shuffled := Shuffling.Shuffle(pairs, draws);
    var training := Prefix(shuffled, -numValSamples);
    var validation := Suffix(shuffled, -numValSamples);
    Shuffling.ShufflePermutes(pairs, draws);
    PrefixSuffix(shuffled, -numValSamples);
    forall p ensures p in pairs <==> p in training || p in validation {
      assert p in pairs <==> p in multiset(training + validation);
    }
  }

  /** Splitting the shuffled pairs at `-num_val_samples` and dividing each half by letter fails
      (with `IndexError`) exactly when some audio file name is empty; otherwise the six parts are
      training, its A..T and U..Z pairs, validation, and its A..T and U..Z pairs. */
  lemma PartsCoverPairs(pairs: seq<PathPair>, numValSamples: int, draws: seq<nat>)
    ensures var r := PartsResult(pairs, numValSamples, draws);
            var training := Prefix(Shuffling.Shuffle(pairs, draws), -numValSamples);
            var validation := Suffix(Shuffling.Shuffle(pairs, draws), -numValSamples);
            && (r.Success? <==> forall p :: p in pairs ==> HasAudioName(p))
            && (r.Success? ==>
                  r.value == [training, Filter(InAT, training), Filter(InUZ, training),
                              validation, Filter(InAT, validation), Filter(InUZ, validation)])
  {
    PartsSucceedWhen(pairs, numValSamples, draws);
    PartsValue(pairs, numValSamples, draws);
  }

  lemma PartsSucceedWhen(pairs: seq<PathPair>, numValSamples: int, draws: seq<nat>)
    ensures PartsResult(pairs, numValSamples, draws).Success? <==> forall p :: p in pairs ==> HasAudioName(p)
  {
    var shuffled := Shuffling.Shuffle(pairs, draws);
    var trainingPairs := Prefix(shuffled, -numValSamples);
    var validationPairs := Suffix(shuffled, -numValSamples);
    SplitMembership(pairs, numValSamples, draws);
    HalvesNamed(pairs, trainingPairs, validationPairs);
    PartitionSucceedsWhen(trainingPairs);
    PartitionSucceedsWhen(validationPairs);
  }

  lemma PartitionSucceedsWhen(half: seq<PathPair>)
    ensures PartitionResult(half).Success? <==> forall p :: p in half ==> HasAudioName(p)
  {
  }

  /** When two halves hold the items of `pairs`, every audio file name of `pairs` is present exactly
      when every one of both halves is. */
  lemma HalvesNamed(pairs: seq<PathPair>, training: seq<PathPair>, validation: seq<PathPair>)
    requires forall p :: p in pairs <==> p in training || p in validation
    ensures (forall p :: p in pairs ==> HasAudioName(p)) <==>
            (forall p :: p in training ==> HasAudioName(p)) && (forall p :: p in validation ==> HasAudioName(p))
  {
  }

  lemma PartsValue(pairs: seq<PathPair>, numValSamples: int, draws: seq<nat>)
    ensures var r := PartsResult(pairs, numValSamples, draws);
            var training := Prefix(Shuffling.Shuffle(pairs, draws), -numValSamples);
            var validation := Suffix(Shuffling.Shuffle(pairs, draws), -numValSamples);
            r.Success? ==>
              r.value == [training, Filter(InAT, training), Filter(InUZ, training),
                          validation, Filter(InAT, validation), Filter(InUZ, validation)]
  {
  }

  /** With the A..Z map a pair converts exactly when its audio file name starts with a capital. */
  lemma ClassifiedByCapital(pairs: seq<PathPair>)
    ensures AllClassified(ClassIds.ClassNamesToIds(), pairs) <==>
            forall p :: p in pairs ==> ClassIds.StartsWithCapital(Paths.Basename(p.audio))
  {
    forall p | p in pairs
      ensures ClassIds.ClassIdOf(ClassIds.ClassNamesToIds(), p.audio).Success? <==> ClassIds.StartsWithCapital(Paths.Basename(p.audio))
    {
      ClassIds.ClassIdOfLetter(p.audio);
    }
  }

  /** With the four directories present and a positive shard count, `convert_mfcc_lips` succeeds
      exactly when every paired audio file name starts with a capital letter. Then it writes the six
      parts in order under their names; 'train_all' and 'validation' together hold every pair exactly
      once; each A..T and U..Z part holds exactly its half's pairs of those letters; and the label
      file maps each id 0..25 to its letter. */
  lemma ConvertMfccLipsWritesEveryPair(fs: Paths.FileSystem, datasetDirAudio: string, datasetDirVideo: string,
                                       tfrecordDir: string, numShards: int, numValSamples: int, draws: seq<nat>)
    requires Paths.Join(datasetDirAudio, "train") in fs && Paths.Join(datasetDirVideo, "train") in fs
    requires Paths.Join(datasetDirAudio, "validation") in fs && Paths.Join(datasetDirVideo, "validation") in fs
    requires numShards > 0
    ensures CollectPairsResult(fs, datasetDirAudio, datasetDirVideo).Success?
    ensures var pairs := CollectPairsResult(fs, datasetDirAudio, datasetDirVideo).value;
            var r := ConvertMfccLipsResult(fs, datasetDirAudio, datasetDirVideo, tfrecordDir, numShards, numValSamples, draws);
            && (r.Success? <==> forall p :: p in pairs ==> ClassIds.StartsWithCapital(Paths.Basename(p.audio)))
            && (r.Success? ==>
                  var out := r.value.splits;
                  && |out| == 6
                  && (forall i :: 0 <= i < 6 ==> out[i].splitName == SplitNames()[i])
                  && multiset(WrittenPairs(out[0].files) + WrittenPairs(out[3].files)) == multiset(pairs)
                  && multiset(WrittenPairs(out[1].files)) + multiset(WrittenPairs(out[2].files)) == multiset(WrittenPairs(out[0].files))
                  && multiset(WrittenPairs(out[4].files)) + multiset(WrittenPairs(out[5].files)) == multiset(WrittenPairs(out[3].files))
                  && (forall p :: p in WrittenPairs(out[1].files) + WrittenPairs(out[4].files) ==> AudioLetterIn(p, 'A', 'T'))
                  && (forall p :: p in WrittenPairs(out[2].files) + WrittenPairs(out[5].files) ==> AudioLetterIn(p, 'U', 'Z'))
                  && (1 <= numValSamples <= |pairs| ==> |WrittenPairs(out[3].files)| == numValSamples)
                  && r.value.labels == ClassIds.LabelsToClassNames())
  {
    CollectPairsConcatenates(fs, datasetDirAudio, datasetDirVideo);
    var pairs := CollectPairsResult(fs, datasetDirAudio, datasetDirVideo).value;
    var ids := ClassIds.ClassNamesToIds();
    PartsCoverPairs(pairs, numValSamples, draws);
    ClassifiedByCapital(pairs);
    var parts := PartsResult(pairs, numValSamples, draws);
    if parts.Success? {
      PartsProperties(pairs, numValSamples, draws);
      SplitAtValidation(pairs, numValSamples, draws);
      WrittenParts(pairs, parts.value, tfrecordDir, numShards);
    } else {
      var p :| p in pairs && !HasAudioName(p);
      assert !ClassIds.StartsWithCapital(Paths.Basename(p.audio));
    }
  }

  /** Given six parts that cover the pairs as `PartsProperties` states, the conversions succeed
      exactly when every pair has a class, and then write each part's pairs under its name. */
  lemma WrittenParts(pairs: seq<PathPair>, lists: seq<seq<PathPair>>, tfrecordDir: string, numShards: int)
    requires numShards > 0
    requires |lists| == 6
    requires multiset(lists[0] + lists[3]) == multiset(pairs)
    requires multiset(lists[1]) + multiset(lists[2]) == multiset(lists[0])
    requires multiset(lists[4]) + multiset(lists[5]) == multiset(lists[3])
    requires forall p :: p in lists[2] + lists[5] ==> AudioLetterIn(p, 'U', 'Z')
    requires forall p :: p in lists[1] + lists[4] ==> HasAudioName(p) && !AudioLetterIn(p, 'U', 'Z')
    ensures var r := Sharding.ConvertAll(SplitConverter(ClassIds.ClassNamesToIds(), tfrecordDir, numShards), Zip(SplitNames(), lists));
            && (r.Success? <==> AllClassified(ClassIds.ClassNamesToIds(), pairs))
            && (r.Success? ==>
                  var out := r.value;
                  && |out| == 6
                  && (forall i :: 0 <= i < 6 ==> out[i].splitName == SplitNames()[i])
                  && multiset(WrittenPairs(out[0].files) + WrittenPairs(out[3].files)) == multiset(pairs)
                  && multiset(WrittenPairs(out[1].files)) + multiset(WrittenPairs(out[2].files)) == multiset(WrittenPairs(out[0].files))
                  && multiset(WrittenPairs(out[4].files)) + multiset(WrittenPairs(out[5].files)) == multiset(WrittenPairs(out[3].files))
                  && (forall p :: p in WrittenPairs(out[1].files) + WrittenPairs(out[4].files) ==> AudioLetterIn(p, 'A', 'T'))
                  && (forall p :: p in WrittenPairs(out[2].files) + WrittenPairs(out[5].files) ==> AudioLetterIn(p, 'U', 'Z'))
                  && WrittenPairs(out[3].files) == lists[3])
  {
    var ids := ClassIds.ClassNamesToIds();
    SplitsWritePairs(SplitNames(), lists, ids, tfrecordDir, numShards);
    PartsClassified(ids, pairs, lists);
    var r := Sharding.ConvertAll(SplitConverter(ids, tfrecordDir, numShards), Zip(SplitNames(), lists));
    if r.Success? {
      var out := r.value;
      assert WrittenPairs(out[0].files) == lists[0] && WrittenPairs(out[1].files) == lists[1];
      assert WrittenPairs(out[2].files) == lists[2] && WrittenPairs(out[3].files) == lists[3];
      assert WrittenPairs(out[4].files) == lists[4] && WrittenPairs(out[5].files) == lists[5];
      forall p | p in lists[1] + lists[4] ensures AudioLetterIn(p, 'A', 'T') {
        assert p in lists[1] || p in lists[4];
        ClassIds.ClassIdOfLetter(p.audio);
      }
    }
  }

  /** All six parts classify exactly when every pair does. */
  lemma PartsClassified(ids: map<string, int>, pairs: seq<PathPair>, lists: seq<seq<PathPair>>)
    requires |lists| == 6
    requires multiset(lists[0] + lists[3]) == multiset(pairs)
    requires multiset(lists[1]) + multiset(lists[2]) == multiset(lists[0])
    requires multiset(lists[4]) + multiset(lists[5]) == multiset(lists[3])
    ensures (forall i :: 0 <= i < 6 ==> AllClassified(ids, lists[i])) <==> AllClassified(ids, pairs)
  {
    var ok := pair => Classified(ids, pair);
    PartsAll(ok, pairs, lists);
    if forall i :: 0 <= i < 6 ==> AllClassified(ids, lists[i]) {
      forall i, p | 0 <= i < 6 && p in lists[i] ensures ok(p) {
        assert AllClassified(ids, lists[i]);
      }
    }
    if forall i, p :: 0 <= i < 6 && p in lists[i] ==> ok(p) {
      forall i | 0 <= i < 6 ensures AllClassified(ids, lists[i]) {
        forall p | p in lists[i] ensures Classified(ids, p) {
          assert ok(p);
        }
      }
    }
    assert AllClassified(ids, pairs) <==> forall p :: p in pairs ==> ok(p);
  }

  /** The six lists: training and validation hold all pairs between them, and each half is split
      into the pairs outside and inside U..Z. */
  lemma PartsProperties(pairs: seq<PathPair>, numValSamples: int, draws: seq<nat>)
    requires PartsResult(pairs, numValSamples, draws).Success?
    ensures var lists := PartsResult(pairs, numValSamples, draws).value;
            && |lists| == 6
            && multiset(lists[0] + lists[3]) == multiset(pairs)
            && multiset(lists[1]) + multiset(lists[2]) == multiset(lists[0])
            && multiset(lists[4]) + multiset(lists[5]) == multiset(lists[3])
            && (forall p :: p in lists[2] + lists[5] ==> AudioLetterIn(p, 'U', 'Z'))
            && (forall p :: p in lists[1] + lists[4] ==> HasAudioName(p) && !AudioLetterIn(p, 'U', 'Z'))
  {
    var shuffled := Shuffling.Shuffle(pairs, draws);
    var training := Prefix(shuffled, -numValSamples);
    var validation := Suffix(shuffled, -numValSamples);
    PartsCoverPairs(pairs, numValSamples, draws);
    SplitAtValidation(pairs, numValSamples, draws);
    SixParts(training, validation);
  }

  /** The six parts built from two halves whose audio file names are all present. */
  lemma SixParts(training: seq<PathPair>, validation: seq<PathPair>)
    requires forall p :: p in training ==> HasAudioName(p)
    requires forall p :: p in validation ==> HasAudioName(p)
    ensures multiset(Filter(InAT, training)) + multiset(Filter(InUZ, training)) == multiset(training)
    ensures multiset(Filter(InAT, validation)) + multiset(Filter(InUZ, validation)) == multiset(validation)
    ensures forall p :: p in Filter(InUZ, training) + Filter(InUZ, validation) ==> AudioLetterIn(p, 'U', 'Z')
    ensures forall p :: p in Filter(InAT, training) + Filter(InAT, validation) ==>
                          HasAudioName(p) && !AudioLetterIn(p, 'U', 'Z')
  {
    LetterHalves(training);
    LetterHalves(validation);
  }

  /** The letter split of one half whose audio file names are all present: the two lists hold its
      pairs exactly once between them, the U..Z pairs on one side and the others on the other. */
  lemma LetterHalves(half: seq<PathPair>)
    requires forall p :: p in half ==> HasAudioName(p)
    ensures multiset(Filter(InAT, half)) + multiset(Filter(InUZ, half)) == multiset(half)
    ensures forall p :: p in Filter(InUZ, half) ==> AudioLetterIn(p, 'U', 'Z')
    ensures forall p :: p in Filter(InAT, half) ==> HasAudioName(p) && !AudioLetterIn(p, 'U', 'Z')
  {
    FilterCount(InAT, InUZ, half);
    FilterSound(InAT, half);
    FilterSound(InUZ, half);
  }

  /** A test holds for every pair of all six parts exactly when it holds for every pair. */
  lemma PartsAll(ok: PathPair -> bool, pairs: seq<PathPair>, lists: seq<seq<PathPair>>)
    requires |lists| == 6
    requires multiset(lists[0] + lists[3]) == multiset(pairs)
    requires multiset(lists[1]) + multiset(lists[2]) == multiset(lists[0])
    requires multiset(lists[4]) + multiset(lists[5]) == multiset(lists[3])
    ensures (forall i, p :: 0 <= i < 6 && p in lists[i] ==> ok(p)) <==> (forall p :: p in pairs ==> ok(p))
  {
    AllOfParts(ok, pairs, lists[0], lists[3]);
    AllOfParts(ok, lists[0], lists[1], lists[2]);
    AllOfParts(ok, lists[3], lists[4], lists[5]);
  }
}
