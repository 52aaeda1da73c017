/** The shard arithmetic and the shard-writing loop of both TFRecord converters:
    `num_per_shard = ceil(n / num_shards)`, shard `s` holds items `[s*per, min((s+1)*per, n))`. */
module Sharding {
  import opened Wrappers
  import opened Seqs
  import Decimal
  import Paths

  /** `int(math.ceil(n / float(d)))` for a positive divisor: the least `q` with `q * d >= n`. */
  function CeilDiv(n: nat, d: nat): (q: nat)
    requires d > 0
    ensures q * d >= n
    ensures q > 0 ==> (q - 1) * d < n
  {
    var q := (n + d - 1) / d;
    assert (n + d - 1) == q * d + (n + d - 1) % d;
    q
  }

  /** The items `range(s * per, min((s + 1) * per, len(items)))` selects (none when the range is empty). */
  function Shard<T>(items: seq<T>, per: nat, s: nat): seq<T>
  {
    var start := s * per;
    var end := Min((s + 1) * per, |items|);
    if start < end then items[start..end] else []
  }

  /** The item lists of shards `0 .. numShards - 1`. */
  function Shards<T>(items: seq<T>, numShards: nat): (r: seq<seq<T>>)
    requires numShards > 0
    ensures |r| == numShards
  {
    var per := CeilDiv(|items|, numShards);
    seq(numShards, s requires 0 <= s < numShards => Shard(items, per, s))
  }

  lemma ShardStep<T>(items: seq<T>, per: nat, m: nat)
    ensures items[..Min(m * per, |items|)] + Shard(items, per, m) == items[..Min((m + 1) * per, |items|)]
  {
    assert (m + 1) * per == m * per + per;
  }

  lemma {:induction false} ShardsPrefixCover<T>(items: seq<T>, per: nat, m: nat)
    ensures Flatten(seq(m, s requires 0 <= s < m => Shard(items, per, s))) == items[..Min(m * per, |items|)]
    decreases m
  {
    var f := s requires 0 <= s < m => Shard(items, per, s);
    if m > 0 {
      var g := s requires 0 <= s < m - 1 => Shard(items, per, s);
      assert seq(m, f) == seq(m - 1, g) + [Shard(items, per, m - 1)];
      FlattenAppend(seq(m - 1, g), Shard(items, per, m - 1));
      ShardsPrefixCover(items, per, m - 1);
      ShardStep(items, per, m - 1);
    }
  }

  /** Every item is written exactly once, in increasing index order, across the shards. */
  lemma ShardsCover<T>(items: seq<T>, numShards: nat)
    requires numShards > 0
    ensures Flatten(Shards(items, numShards)) == items
  {
    var per := CeilDiv(|items|, numShards);
    ShardsPrefixCover(items, per, numShards);
    assert seq(numShards, s requires 0 <= s < numShards => Shard(items, per, s)) == Shards(items, numShards);
    assert numShards * per == per * numShards;
  }

  /** No shard holds more than `num_per_shard` items; a shard that starts at or after the end is empty. */
  lemma ShardsBounded<T>(items: seq<T>, numShards: nat, s: nat)
    requires numShards > 0 && s < numShards
    ensures |Shards(items, numShards)[s]| <= CeilDiv(|items|, numShards)
    ensures s * CeilDiv(|items|, numShards) >= |items| ==> Shards(items, numShards)[s] == []
  {
    var per := CeilDiv(|items|, numShards);
    assert (s + 1) * per == s * per + per;
  }

  lemma MulMonotone(a: nat, b: nat, c: nat)
    requires a <= b
    ensures a * c <= b * c
  {
  }

  lemma QuotientBelow(i: nat, per: nat, k: nat)
    requires per > 0 && i < k * per
    ensures i / per < k
  {
    if i / per >= k {
      MulMonotone(k, i / per, per);
    }
  }

  lemma ShardAt<T>(items: seq<T>, per: nat, s: nat, r: nat)
    requires r < per && s * per + r < |items|
    ensures r < |Shard(items, per, s)| && Shard(items, per, s)[r] == items[s * per + r]
  {
    assert (s + 1) * per == s * per + per;
  }

  /** Item `i` is found in shard `i / per` at position `i % per`. */
  lemma ShardLocation<T>(items: seq<T>, numShards: nat, i: nat)
    requires numShards > 0 && i < |items|
    ensures CeilDiv(|items|, numShards) > 0
    ensures i / CeilDiv(|items|, numShards) < numShards
    ensures var per := CeilDiv(|items|, numShards);
            i % per < |Shards(items, numShards)[i / per]| && Shards(items, numShards)[i / per][i % per] == items[i]
  {
    var per := CeilDiv(|items|, numShards);
    assert per > 0;
    DivMod(i, per);
    QuotientBelow(i, per, numShards);
    ShardAt(items, per, i / per, i % per);
    assert Shards(items, numShards)[i / per] == Shard(items, per, i / per);
  }

  lemma DivMod(i: nat, per: nat)
    requires per > 0
    ensures i == (i / per) * per + i % per && i % per < per
  {
  }

  /** A shard that ends inside a prefix of `ys` is the same shard of that prefix. */
  lemma ShardOfPrefix<T>(xs: seq<T>, ys: seq<T>, per: nat, s: nat)
    requires |xs| <= |ys| && xs == ys[..|xs|]
    requires Min((s + 1) * per, |ys|) <= |xs|
    ensures Shard(xs, per, s) == Shard(ys, per, s)
  {
  }

  /** The examples a converter writes: the conversion of each item in order, where the first
      item whose conversion raises stops the whole conversion with that exception. */
  function ConvertAll<T, R>(convert: T -> Result<R, PyError>, items: seq<T>): Result<seq<R>, PyError>
  {
    if items == [] then Success([])
    else match ConvertAll(convert, items[..|items| - 1])
      case Failure(e) => Failure(e)
      case Success(rs) =>
        match convert(items[|items| - 1])
        case Failure(e) => Failure(e)
        case Success(r) => Success(rs + [r])
  }

  /** The conversion succeeds exactly when every item converts, and then gives each item's example;
      otherwise it fails with the exception of the first item that does not convert. */
  lemma {:induction false} ConvertAllMeaning<T, R>(convert: T -> Result<R, PyError>, items: seq<T>)
    ensures ConvertAll(convert, items).Success? <==> forall i :: 0 <= i < |items| ==> convert(items[i]).Success?
    ensures ConvertAll(convert, items).Success? ==>
              |ConvertAll(convert, items).value| == |items| &&
              forall i :: 0 <= i < |items| ==> ConvertAll(convert, items).value[i] == convert(items[i]).value
    ensures ConvertAll(convert, items).Failure? ==>
              exists i :: 0 <= i < |items| && convert(items[i]) == Failure(ConvertAll(convert, items).error) &&
                          forall j :: 0 <= j < i ==> convert(items[j]).Success?
    decreases |items|
  {
    if items != [] {
      var init := items[..|items| - 1];
      ConvertAllMeaning(convert, init);
      assert forall i :: 0 <= i < |init| ==> items[i] == init[i];
    }
  }

  lemma {:induction false} ConvertAllPrefixFailure<T, R>(convert: T -> Result<R, PyError>, items: seq<T>, m: nat)
    requires m <= |items|
    requires ConvertAll(convert, items[..m]).Failure?
    ensures ConvertAll(convert, items) == ConvertAll(convert, items[..m])
    decreases |items| - m
  {
    if m < |items| {
      assert items[..|items| - 1][..m] == items[..m];
      ConvertAllPrefixFailure(convert, items[..|items| - 1], m);
    } else {
      assert items[..m] == items;
    }
  }

  /** Converting one more item: its example is appended, or its exception ends the conversion. */
  lemma ConvertAllStep<T, R>(convert: T -> Result<R, PyError>, items: seq<T>, i: nat, done: seq<R>)
    requires i < |items| && ConvertAll(convert, items[..i]) == Success(done)
    ensures convert(items[i]).Success? ==> ConvertAll(convert, items[..i + 1]) == Success(done + [convert(items[i]).value])
    ensures convert(items[i]).Failure? ==> ConvertAll(convert, items) == Failure(convert(items[i]).error)
  {
    assert items[..i + 1][..i] == items[..i];
    if convert(items[i]).Failure? {
      ConvertAllPrefixFailure(convert, items, i + 1);
    }
  }

  /** A two-item list whose items both convert gives both examples. */
  lemma ConvertAllTwo<T, R>(convert: T -> Result<R, PyError>, a: T, b: T)
    requires convert(a).Success? && convert(b).Success?
    ensures ConvertAll(convert, [a, b]) == Success([convert(a).value, convert(b).value])
  {
    var x, y := convert(a).value, convert(b).value;
    assert [a][..0] == [] && [a][0] == a;
    assert ConvertAll(convert, []) == Success([]);
    assert [] + [x] == [x];
    assert ConvertAll(convert, [a]) == Success([x]);
    assert [a, b][..1] == [a] && [a, b][1] == b;
    assert [x] + [y] == [x, y];
  }

  /** One file of a TFRecord split: its name and the examples written to it, in order. */
  datatype ShardFile<R> = ShardFile(name: string, records: seq<R>)

  /** The files for the examples `examples`: one per shard id, named by `fileName`. */
  function ShardFiles<R>(fileName: nat -> string, examples: seq<R>, numShards: nat): seq<ShardFile<R>>
    requires numShards > 0
  {
    var shards := Shards(examples, numShards);
    seq(numShards, s requires 0 <= s < numShards => ShardFile(fileName(s), shards[s]))
  }

  /** The result of the shard loop: `ceil(n / float(0))` divides by zero; a negative shard count
      gives `range` nothing to do; otherwise the examples or the first exception. */
  function WriteShardsResult<T, R>(convert: T -> Result<R, PyError>, fileName: nat -> string,
                                   items: seq<T>, numShards: int): Result<seq<ShardFile<R>>, PyError>
  {
    if numShards == 0 then Failure(ZeroDivisionError)
    else if numShards < 0 then Success([])
    else
      match ConvertAll(convert, items)
      case Failure(e) => Failure(e)
      case Success(examples) => Success(ShardFiles(fileName, examples, numShards))
  }

  /** Growing the written prefix from `k` full shards to `k + 1` leaves the earlier shards as they
      were and makes the new part shard `k`. */
  lemma NextShard<R>(before: seq<R>, after: seq<R>, per: nat, k: nat, n: nat)
    requires |before| == Min(k * per, n) && |after| == Min((k + 1) * per, n)
    requires before == after[..|before|]
    ensures forall s :: 0 <= s < k ==> Shard(before, per, s) == Shard(after, per, s)
    ensures Shard(after, per, k) == after[|before|..]
  {
    assert (k + 1) * per == k * per + per;
    forall s | 0 <= s < k
      ensures Shard(before, per, s) == Shard(after, per, s)
    {
      MulMonotone(s + 1, k, per);
      ShardOfPrefix(before, after, per, s);
    }
  }

  lemma ShardFilesAre<R>(fileName: nat -> string, examples: seq<R>, numShards: nat, files: seq<ShardFile<R>>)
    requires numShards > 0 && |files| == numShards
    requires forall s :: 0 <= s < numShards ==>
               files[s] == ShardFile(fileName(s), Shard(examples, CeilDiv(|examples|, numShards), s))
    ensures files == ShardFiles(fileName, examples, numShards)
  {
  }

  /** The inner loop of `convert_dataset`: items `start .. end - 1`, converted in order. */
  method ConvertRange<T, R>(convert: T -> Result<R, PyError>, items: seq<T>, start: nat, end: nat,
                            ghost done: seq<R>) returns (r: Result<seq<R>, PyError>)
    requires start <= end <= |items| && |done| == start
    requires ConvertAll(convert, items[..start]) == Success(done)
    ensures r.Success? ==> |r.value| == end - start && ConvertAll(convert, items[..end]) == Success(done + r.value)
    ensures r.Failure? ==> ConvertAll(convert, items) == Failure(r.error)
  {
    var records: seq<R> := [];
    var i := start;
    assert done + records == done;
    while i < end
      invariant start <= i <= end
      invariant |records| == i - start
      invariant ConvertAll(convert, items[..i]) == Success(done + records)
    {
      assert items[..i + 1][..i] == items[..i];
      assert items[..i + 1][i] == items[i];
      match convert(items[i])
      case Failure(e) =>
        ConvertAllPrefixFailure(convert, items, i + 1);
        return Failure(e);
      case Success(example) =>
        assert done + records + [example] == done + (records + [example]);
        records := records + [example];
        i := i + 1;
    }
    return Success(records);
  }

  /** The nested shard and item loops of `convert_dataset`, each file collecting what its writer receives. */
  method WriteShards<T, R>(convert: T -> Result<R, PyError>, fileName: nat -> string,
                           items: seq<T>, numShards: int) returns (r: Result<seq<ShardFile<R>>, PyError>)
    ensures r == WriteShardsResult(convert, fileName, items, numShards)
  {
    if numShards == 0 {
      return Failure(ZeroDivisionError);
    }
    if numShards < 0 {
      return Success([]);
    }
    var n := |items|;
    var per := CeilDiv(n, numShards);
    var files: seq<ShardFile<R>> := [];
    ghost var done: seq<R> := [];
    var shardId := 0;
    while shardId < numShards
      invariant 0 <= shardId <= numShards
      invariant |done| == Min(shardId * per, n)
      invariant ConvertAll(convert, items[..|done|]) == Success(done)
      invariant |files| == shardId
      invariant forall s :: 0 <= s < shardId ==> files[s] == ShardFile(fileName(s), Shard(done, per, s))
    {
      var start := shardId * per;
      var end := Min((shardId + 1) * per, n);
      assert (shardId + 1) * per == start + per;
      var records: seq<R> := [];
      if start < end {
        var converted := ConvertRange(convert, items, start, end, done);
        if converted.Failure? {
          return Failure(converted.error);
        }
        records := converted.value;
      }
      ghost var before := done;
      if start < end {
        done := done + records;
      }
      NextShard(before, done, per, shardId, n);
      files := files + [ShardFile(fileName(shardId), records)];
      shardId := shardId + 1;
    }
    assert numShards * per == per * numShards;
    assert items[..n] == items;
    ShardFilesAre(fileName, done, numShards, files);
    return Success(files);
  }

  /** `'%s_%s_%d-of-%d.tfrecord' % (prefix, split_name, shard_id, num_shards)` joined to the output directory. */
  function ShardFileName(prefix: string, splitName: string, dir: string, shardId: int, numShards: int): string
  {
    Paths.Join(dir, prefix + "_" + splitName + "_" + Decimal.IntToString(shardId) + "-of-"
                    + Decimal.IntToString(numShards) + ".tfrecord")
  }

  lemma MiddlesEqual(p: string, a: string, b: string, q: string)
    requires p + a + q == p + b + q
    ensures a == b
  {
    var x := p + a + q;
    assert |a| == |b|;
    assert a == x[|p|..|p| + |a|];
  }

  /** Distinct shard ids of one split give distinct file names. */
  lemma ShardFileNameInjective(prefix: string, splitName: string, dir: string, a: int, b: int, numShards: int)
    requires prefix != "" && prefix[0] != '/'
    requires ShardFileName(prefix, splitName, dir, a, numShards) == ShardFileName(prefix, splitName, dir, b, numShards)
    ensures a == b
  {
    var p := prefix + "_" + splitName + "_";
    var q := "-of-" + Decimal.IntToString(numShards) + ".tfrecord";
    var na := p + Decimal.IntToString(a) + q;
    var nb := p + Decimal.IntToString(b) + q;
    assert prefix + "_" + splitName + "_" + Decimal.IntToString(a) + "-of-" + Decimal.IntToString(numShards) + ".tfrecord" == na;
    assert prefix + "_" + splitName + "_" + Decimal.IntToString(b) + "-of-" + Decimal.IntToString(numShards) + ".tfrecord" == nb;
    assert na[0] == prefix[0] && nb[0] == prefix[0];
    Paths.JoinInjective(dir, na, nb);
    MiddlesEqual(p, Decimal.IntToString(a), Decimal.IntToString(b), q);
    Decimal.IntToStringInjective(a, b);
  }

  /** The records of every file of a split. */
  function Records<R>(files: seq<ShardFile<R>>): (r: seq<seq<R>>)
    ensures |r| == |files|
    ensures forall s :: 0 <= s < |files| ==> r[s] == files[s].records
  {
    Map((f: ShardFile<R>) => f.records, files)
  }

  /** The files of a split are named by shard id, none holds more than `num_per_shard` examples,
      and read one after the other they hold every example exactly once, in order. */
  lemma ShardFilesCover<R>(fileName: nat -> string, examples: seq<R>, numShards: nat)
    requires numShards > 0
    ensures |ShardFiles(fileName, examples, numShards)| == numShards
    ensures forall s :: 0 <= s < numShards ==>
              ShardFiles(fileName, examples, numShards)[s].name == fileName(s) &&
              |ShardFiles(fileName, examples, numShards)[s].records| <= CeilDiv(|examples|, numShards)
    ensures Flatten(Records(ShardFiles(fileName, examples, numShards))) == examples
  {
    assert Records(ShardFiles(fileName, examples, numShards)) == Shards(examples, numShards);
    ShardsCover(examples, numShards);
    forall s | 0 <= s < numShards
      ensures |ShardFiles(fileName, examples, numShards)[s].records| <= CeilDiv(|examples|, numShards)
    {
      ShardsBounded(examples, numShards, s);
    }
  }
}
