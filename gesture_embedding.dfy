/** The colour/depth embedding of the gesture models: how `get_init_fn` renames the model variables
    to the names of the two auto-encoder checkpoints, the order in which it restores them, and the
    layout of the projector metadata written by `config_embedding`. */
module GestureEmbedding {
  import opened Wrappers
  import opened Decimal

  predicate StartsWith(s: string, prefix: string)
  {
    |prefix| <= |s| && s[..|prefix|] == prefix
  }

  /** `'CAE' + name[5:]`: a variable's name in an auto-encoder checkpoint. */
  function CheckpointName(name: string): (k: string)
    requires |name| >= 5
    ensures |k| == |name| - 2 && StartsWith(k, "CAE")
  {
    "CAE" + name[5..]
  }

  /** Two variables of the same scope never get the same checkpoint name. */
  lemma CheckpointNameInjective(scope: string, v: string, w: string)
    requires |scope| == 5 && StartsWith(v, scope) && StartsWith(w, scope)
    ensures CheckpointName(v) == CheckpointName(w) ==> v == w
  {
    if CheckpointName(v) == CheckpointName(w) {
      assert v[5..] == CheckpointName(v)[3..] == CheckpointName(w)[3..] == w[5..];
      assert v == v[..5] + v[5..] && w == w[..5] + w[5..];
    }
  }

  /** The dictionary the loop over the model variables builds for one scope ('Color' or 'Depth'):
      each variable of that scope under its checkpoint name, in variable order. */
  function ScopeVariables(scope: string, names: seq<string>): map<string, string>
    requires |scope| == 5
  {
    if names == [] then map[]
    else
      var m := ScopeVariables(scope, names[..|names| - 1]);
      var v := names[|names| - 1];
      if StartsWith(v, scope) then m[CheckpointName(v) := v] else m
  }

  /** Every variable of the scope is in the dictionary under its checkpoint name and is never
      overwritten by another; every entry is a variable of the scope under its own checkpoint name. */
  lemma {:induction false} ScopeVariablesEntries(scope: string, names: seq<string>)
    requires |scope| == 5
    ensures var m := ScopeVariables(scope, names);
            && (forall v :: v in names && StartsWith(v, scope) ==> CheckpointName(v) in m && m[CheckpointName(v)] == v)
            && (forall k :: k in m ==> m[k] in names && StartsWith(m[k], scope) && k == CheckpointName(m[k]))
    decreases |names|
  {
    if names != [] {
      var init := names[..|names| - 1];
      var v := names[|names| - 1];
      ScopeVariablesEntries(scope, init);
      assert names == init + [v];
      if StartsWith(v, scope) {
        forall w | w in init && StartsWith(w, scope)
          ensures ScopeVariables(scope, names)[CheckpointName(w)] == w
        {
          CheckpointNameInjective(scope, v, w);
        }
      }
    }
  }

  /** The dictionaries as they are read: a key is present exactly when some variable of the scope
      has that checkpoint name, and it then maps to the scope name followed by the key after `CAE`. */
  lemma ScopeVariablesLookup(scope: string, names: seq<string>, k: string)
    requires |scope| == 5
    ensures k in ScopeVariables(scope, names) <==> exists v :: v in names && StartsWith(v, scope) && k == CheckpointName(v)
    ensures k in ScopeVariables(scope, names) ==> |k| >= 3 && ScopeVariables(scope, names)[k] == scope + k[3..]
  {
    ScopeVariablesEntries(scope, names);
    var m := ScopeVariables(scope, names);
    if k in m {
      var v := m[k];
      assert v in names && StartsWith(v, scope) && k == CheckpointName(v);
      assert v == v[..5] + v[5..];
    }
  }

  /** A variable lands in the colour dictionary, the depth dictionary, or (starting with neither
      scope) in none; never in both. */
  lemma VariablesSplitByScope(names: seq<string>, v: string)
    requires v in names
    ensures v in ScopeVariables("Color", names).Values <==> StartsWith(v, "Color")
    ensures v in ScopeVariables("Depth", names).Values <==> StartsWith(v, "Depth")
    ensures !(v in ScopeVariables("Color", names).Values && v in ScopeVariables("Depth", names).Values)
  {
    ScopeVariablesEntries("Color", names);
    ScopeVariablesEntries("Depth", names);
    if StartsWith(v, "Color") {
      assert ScopeVariables("Color", names)[CheckpointName(v)] == v;
    }
    if StartsWith(v, "Depth") {
      assert ScopeVariables("Depth", names)[CheckpointName(v)] == v;
    }
  }

  /** What `get_init_fn` returns: the two dictionaries and the latest checkpoint of each directory
      (`None` when a directory holds none). */
  datatype InitFn = InitFn(colorVariables: map<string, string>, depthVariables: map<string, string>,
                           colorCheckpoint: Option<string>, depthCheckpoint: Option<string>)

  function LatestCheckpoint(latestCheckpoints: map<string, string>, dir: string): Option<string>
  {
    if dir in latestCheckpoints then Some(latestCheckpoints[dir]) else None
  }

  /** `checkpoint_dir_color, checkpoint_dir_depth = checkpoint_dirs` and the two dictionaries. */
  function InitFnResult(checkpointDirs: seq<string>, modelVariables: seq<string>,
                        latestCheckpoints: map<string, string>): Result<InitFn, PyError>
  {
    if |checkpointDirs| > 2 then Failure(ValueError("too many values to unpack"))
    else if |checkpointDirs| < 2 then Failure(ValueError("not enough values to unpack"))
    else Success(InitFn(ScopeVariables("Color", modelVariables), ScopeVariables("Depth", modelVariables),
                        LatestCheckpoint(latestCheckpoints, checkpointDirs[0]),
                        LatestCheckpoint(latestCheckpoints, checkpointDirs[1])))
  }

  /** `TrainEmbedding.get_init_fn`: unpack the two directories, then fill both dictionaries in one
      pass over the model variables. */
  method GetInitFn(checkpointDirs: seq<string>, modelVariables: seq<string>,
                   latestCheckpoints: map<string, string>) returns (r: Result<InitFn, PyError>)
    ensures r == InitFnResult(checkpointDirs, modelVariables, latestCheckpoints)
  {
    if |checkpointDirs| > 2 {
      return Failure(ValueError("too many values to unpack"));
    } else if |checkpointDirs| < 2 {
      return Failure(ValueError("not enough values to unpack"));
    }
    var colorDir, depthDir := checkpointDirs[0], checkpointDirs[1];
    var colorVariables: map<string, string> := map[];
    var depthVariables: map<string, string> := map[];
    for i := 0 to |modelVariables|
      invariant colorVariables == ScopeVariables("Color", modelVariables[..i])
      invariant depthVariables == ScopeVariables("Depth", modelVariables[..i])
    {
      var name := modelVariables[i];
      assert modelVariables[..i + 1][..i] == modelVariables[..i];
      if StartsWith(name, "Color") {
        colorVariables := colorVariables[CheckpointName(name) := name];
      }
      if StartsWith(name, "Depth") {
        depthVariables := depthVariables[CheckpointName(name) := name];
      }
    }
    assert modelVariables[..|modelVariables|] == modelVariables;
    r := Success(InitFn(colorVariables, depthVariables, LatestCheckpoint(latestCheckpoints, colorDir),
                        LatestCheckpoint(latestCheckpoints, depthDir)));
  }

  /** One `Saver.restore`: the variables it fills and the checkpoint it reads. */
  datatype RestoreEvent = RestoreVariables(variables: map<string, string>, checkpointPath: string)

  /** The returned `restore(sess)`: colour first, then depth; restoring from a missing checkpoint
      raises and stops the function. */
  function RestoreRun(fn: InitFn): (seq<RestoreEvent>, Outcome<PyError>)
  {
    if fn.colorCheckpoint.None? then ([], Fail(ValueError("save_path is None")))
    else
      var color := RestoreVariables(fn.colorVariables, fn.colorCheckpoint.value);
      if fn.depthCheckpoint.None? then ([color], Fail(ValueError("save_path is None")))
      else ([color, RestoreVariables(fn.depthVariables, fn.depthCheckpoint.value)], Pass)
  }

  /** Restoring succeeds exactly when both directories hold a checkpoint; the colour variables are
      always restored first and the depth variables, from the depth checkpoint, second. */
  lemma RestoreColorThenDepth(checkpointDirs: seq<string>, modelVariables: seq<string>,
                              latestCheckpoints: map<string, string>)
    requires InitFnResult(checkpointDirs, modelVariables, latestCheckpoints).Success?
    ensures var run := RestoreRun(InitFnResult(checkpointDirs, modelVariables, latestCheckpoints).value);
            && |checkpointDirs| == 2
            && (run.1 == Pass <==> checkpointDirs[0] in latestCheckpoints && checkpointDirs[1] in latestCheckpoints)
            && (run.1 == Pass ==> |run.0| == 2)
            && (forall i :: 0 <= i < |run.0| ==>
                  run.0[i].variables == ScopeVariables(if i == 0 then "Color" else "Depth", modelVariables) &&
                  run.0[i].checkpointPath == latestCheckpoints[checkpointDirs[i]])
  {
  }

  datatype Modality = Color | Depth

  function ModalityName(m: Modality): string
  {
    match m
    case Color => "color"
    case Depth => "depth"
  }

  /** One metadata line: the row's index, its modality and its sample's label. */
  datatype MetadataRow = MetadataRow(index: nat, modality: Modality, classLabel: int)

  /** `'%d\tcolor[%d]\n'` or `'%d\tdepth[%d]\n'`. */
  function RowLine(row: MetadataRow): string
  {
    NatToString(row.index) + RowTail(row.modality, row.classLabel)
  }

  /** What follows the index on a metadata line: a tab, the modality and the label in brackets. */
  function RowTail(modality: Modality, classLabel: int): string
  {
    "\t" + ModalityName(modality) + "[" + IntToString(classLabel) + "]\n"
  }

  const MetadataHeader: string := "index\tlabel\n"

  /** The rows the two `enumerate` loops describe: the colour rows, then the depth rows numbered on. */
  function MetadataRows(labels: seq<int>): seq<MetadataRow>
  {
    seq(|labels|, i requires 0 <= i < |labels| => MetadataRow(i, Color, labels[i])) +
    seq(|labels|, i requires 0 <= i < |labels| => MetadataRow(i + |labels|, Depth, labels[i]))
  }

  function MetadataLines(labels: seq<int>): seq<string>
  {
    [MetadataHeader] + seq(2 * |labels|, j requires 0 <= j < 2 * |labels| => RowLine(MetadataRows(labels)[j]))
  }

  /** The metadata part of `VisualizeCommonEmbedding.config_embedding`, one write per line. */
  method WriteMetadata(labels: seq<int>) returns (lines: seq<string>)
    ensures lines == MetadataLines(labels)
  {
    var n := |labels|;
    lines := [MetadataHeader];
    for index := 0 to n
      invariant lines == [MetadataHeader] + ColorLines(labels, index)
    {
      ColorLinesStep(labels, index);
      lines := lines + [RowLine(MetadataRow(index, Color, labels[index]))];
    }
    for index := 0 to n
      invariant lines == [MetadataHeader] + ColorLines(labels, n) + DepthLines(labels, index)
    {
      DepthLinesStep(labels, index);
      lines := lines + [RowLine(MetadataRow(index + n, Depth, labels[index]))];
    }
    MetadataLinesSplit(labels);
  }

  /** The first `k` colour lines. */
  function ColorLines(labels: seq<int>, k: nat): seq<string>
    requires k <= |labels|
  {
    seq(k, j requires 0 <= j < k => RowLine(MetadataRow(j, Color, labels[j])))
  }

  /** The first `k` depth lines. */
  function DepthLines(labels: seq<int>, k: nat): seq<string>
    requires k <= |labels|
  {
    seq(k, j requires 0 <= j < k => RowLine(MetadataRow(j + |labels|, Depth, labels[j])))
  }

  lemma ColorLinesStep(labels: seq<int>, k: nat)
    requires k < |labels|
    ensures ColorLines(labels, k + 1) == ColorLines(labels, k) + [RowLine(MetadataRow(k, Color, labels[k]))]
  {
  }

  lemma DepthLinesStep(labels: seq<int>, k: nat)
    requires k < |labels|
    ensures DepthLines(labels, k + 1) == DepthLines(labels, k) + [RowLine(MetadataRow(k + |labels|, Depth, labels[k]))]
  {
  }

  /** The metadata is the header, then every colour line, then every depth line. */
  lemma MetadataLinesSplit(labels: seq<int>)
    ensures MetadataLines(labels) == [MetadataHeader] + ColorLines(labels, |labels|) + DepthLines(labels, |labels|)
  {
    var n := |labels|;
    var expected := [MetadataHeader] + ColorLines(labels, n) + DepthLines(labels, n);
    MetadataLinesAt(labels);
    forall k | 0 <= k < 2 * n + 1
      ensures MetadataLines(labels)[k] == expected[k]
    {
      if k == 0 {
      } else if k <= n {
        assert MetadataLines(labels)[(k - 1) + 1] == expected[(k - 1) + 1];
      } else {
        assert MetadataLines(labels)[n + (k - 1 - n) + 1] == expected[n + (k - 1 - n) + 1];
      }
    }
  }

  /** The metadata has a header and `2n` lines: colour line `i` carries index `i`, depth line `i`
      carries index `i + n`, and both carry the label of sample `i`, so both halves list the labels
      in the same order. */
  lemma MetadataLinesAt(labels: seq<int>)
    ensures var lines := MetadataLines(labels);
            var n := |labels|;
            && |lines| == 2 * n + 1 && lines[0] == MetadataHeader
            && (forall j :: 0 <= j < n ==> lines[j + 1] == RowLine(MetadataRow(j, Color, labels[j])))
            && (forall j :: 0 <= j < n ==> lines[n + j + 1] == RowLine(MetadataRow(j + n, Depth, labels[j])))
  {
    var n := |labels|;
    var rows := MetadataRows(labels);
    assert forall j :: 0 <= j < n ==> rows[j] == MetadataRow(j, Color, labels[j]);
    assert forall j :: 0 <= j < n ==> rows[n + j] == MetadataRow(j + n, Depth, labels[j]);
  }

  /** `tf.concat([color_net, depth_net], 0)`: the colour representations, then the depth ones. */
  function Representations<T>(color: seq<T>, depth: seq<T>): seq<T>
  {
    color + depth
  }

  /** Row `j` of the representation variable is the sample that metadata line `j + 1` describes:
      same modality, same sample, hence the same label. */
  lemma RepresentationsMatchMetadata<T>(labels: seq<int>, color: seq<T>, depth: seq<T>)
    requires |color| == |labels| && |depth| == |labels|
    ensures var rows := MetadataRows(labels);
            var n := |labels|;
            && |Representations(color, depth)| == |rows| == 2 * n
            && (forall j :: 0 <= j < 2 * n ==>
                  var sample := if j < n then j else j - n;
                  && rows[j].index == j
                  && rows[j].classLabel == labels[sample]
                  && Representations(color, depth)[j] == (if rows[j].modality == Color then color else depth)[sample])
  {
  }

  /** Lines of distinct rows differ: a metadata line determines its index, modality and label. */
  lemma RowLineInjective(a: MetadataRow, b: MetadataRow)
    ensures RowLine(a) == RowLine(b) ==> a == b
  {
    if RowLine(a) == RowLine(b) {
      DigitsBeforeTab(NatToString(a.index), RowTail(a.modality, a.classLabel),
                      NatToString(b.index), RowTail(b.modality, b.classLabel));
      NatToStringInjective(a.index, b.index);
      RowTailParts(a.modality, a.classLabel);
      RowTailParts(b.modality, b.classLabel);
      IntToStringInjective(a.classLabel, b.classLabel);
    }
  }

  lemma RowTailParts(modality: Modality, classLabel: int)
    ensures var t := RowTail(modality, classLabel);
            |t| >= 9 && t[0] == '\t' && t[1..6] == ModalityName(modality) && t[7..|t| - 2] == IntToString(classLabel)
  {
    var t := RowTail(modality, classLabel);
    var head := "\t" + ModalityName(modality) + "[";
    assert t == head + (IntToString(classLabel) + "]\n");
    assert t[7..|t| - 2] == (IntToString(classLabel) + "]\n")[..|t| - 9];
  }

  /** The index of a line is exactly the digits before its first tab. */
  lemma TabAfterDigits(a: string, x: string)
    requires forall i :: 0 <= i < |a| ==> IsDigit(a[i])
    requires |x| > 0 && x[0] == '\t'
    ensures forall i :: 0 <= i < |a| ==> (a + x)[i] != '\t'
    ensures (a + x)[|a|] == '\t'
  {
  }

  lemma DigitsBeforeTab(a: string, x: string, b: string, y: string)
    requires forall i :: 0 <= i < |a| ==> IsDigit(a[i])
    requires forall i :: 0 <= i < |b| ==> IsDigit(b[i])
    requires |x| > 0 && x[0] == '\t' && |y| > 0 && y[0] == '\t'
    requires a + x == b + y
    ensures a == b && x == y
  {
    TabAfterDigits(a, x);
    TabAfterDigits(b, y);
    assert |a| == |b|;
    assert a == (a + x)[..|a|] && b == (b + y)[..|b|];
    assert x == (a + x)[|a|..] && y == (b + y)[|b|..];
  }

  /** Every metadata index reads back as the number of the line after the header. */
  lemma MetadataIndexReadsBack(labels: seq<int>, j: nat)
    requires j < 2 * |labels|
    ensures var line := MetadataLines(labels)[j + 1];
            var digits := NatToString(j);
            && |digits| < |line| && line[..|digits|] == digits && line[|digits|] == '\t'
            && ParseNat(line[..|digits|]) == j
  {
    var row := MetadataRows(labels)[j];
    assert row.index == j;
    var line := MetadataLines(labels)[j + 1];
    assert line == NatToString(j) + RowTail(row.modality, row.classLabel);
    ParseNatToString(j);
  }
}
