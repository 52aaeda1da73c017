/** The evaluation routine: `Evaluate.evaluate` fills in the missing configuration, builds the
    model and runs the subclass hooks in a fixed order, one step per batch; the module-level
    `evaluate` driver first moves the keyword arguments that name an attribute of the instance onto
    the instance and passes the others on. The TensorFlow graph and session are not modelled: each
    hook call leaves an `Event` in the instance's trace. */
module Evaluation {
  import opened Wrappers
  import opened Seqs

  /** A Python value passed through keyword arguments; ints, bools, strings and `None` suffice here. */
  datatype Value = NoneValue | IntValue(i: int) | BoolValue(b: bool) | StrValue(s: string)

  /** `checkpoint_dirs`: one path, or a list or tuple of paths. */
  datatype CheckpointDirs = OnePath(path: string) | PathList(paths: seq<string>)

  /** The slim argument scope the model is built in: `nets_arg_scope(is_training=..., use_batch_norm=...)`. */
  datatype ArgScope = ArgScope(isTraining: Value, useBatchNorm: Value)

  /** A call of a hook, or a checkpoint restore, as seen from outside. */
  datatype Event =
    | GetData(splitName: Value, tfrecordDir: string, batchSize: Value, shuffle: Value)
    | Compute(scope: ArgScope, kwargs: map<string, Value>)
    | ComputeLogData
    | InitModel(checkpointDirs: seq<string>)
    | Restore(checkpointPath: string)
    | StepLogInfo
    | LastStepLogInfo(batchSize: Value)

  /** A bare path becomes a one-element list; a list or tuple is kept. */
  function NormalizeCheckpointDirs(checkpointDirs: CheckpointDirs): (dirs: seq<string>)
    ensures checkpointDirs.OnePath? ==> dirs == [checkpointDirs.path]
    ensures checkpointDirs.PathList? ==> dirs == checkpointDirs.paths
  {
    match checkpointDirs
    case OnePath(path) => [path]
    case PathList(paths) => paths
  }

  /** `used_arg_scope(batch_stat, use_batch_norm)`: batch statistics are used exactly in training mode. */
  function UsedArgScope(batchStat: Value, useBatchNorm: Value): ArgScope
  {
    ArgScope(batchStat, useBatchNorm)
  }

  /** Python's `floor(n / b)` for `b != 0` (Dafny's `/` is Euclidean). */
  function FloorQuotient(n: int, b: int): int
    requires b != 0
  {
    if b > 0 then n / b else (-n) / (-b)
  }

  /** `int(np.ceil(n / b))`: the least integer not below the exact quotient. */
  function CeilQuotient(n: int, b: int): (q: int)
    requires b != 0
    ensures b > 0 ==> (q - 1) * b < n <= q * b
    ensures b < 0 ==> q * b <= n < (q - 1) * b
  {
    -FloorQuotient(-n, b)
  }

  /** For a positive batch size the ceiling is the usual `(n + b - 1) / b`. */
  lemma CeilQuotientPositive(n: nat, b: int)
    requires b > 0
    ensures CeilQuotient(n, b) == (n + b - 1) / b
  {
    var q := CeilQuotient(n, b);
    var r := (n + b - 1) / b;
    assert r * b <= n + b - 1 < (r + 1) * b;
    MulLtCancel(q - 1, r, b);
    MulLtCancel(r - 1, q, b);
  }

  lemma MulLtCancel(x: int, y: int, b: int)
    requires x * b < y * b && b > 0
    ensures x < y
  {
  }

  /** The batch size as `ceil` sees it: a bool is the int 0 or 1, a string cannot be divided by. */
  function Divisor(v: Value): Result<int, PyError>
  {
    match v
    case IntValue(i) => Success(i)
    case BoolValue(b) => Success(if b then 1 else 0)
    case NoneValue => Failure(TypeError("unsupported operand type for /: NoneType"))
    case StrValue(_) => Failure(TypeError("unsupported operand type for /: str"))
  }

  /** The batch size and step count a run uses. */
  datatype Plan = Plan(batchSize: Value, numberOfSteps: int)

  /** `batch_size` defaults to the whole dataset; `number_of_steps` defaults to the number of batches
      needed to cover the dataset, and computing it fails for a zero or non-numeric batch size. */
  function PlanRun(numSamples: nat, batchSize: Value, numberOfSteps: Option<int>): Result<Plan, PyError>
  {
    var b := if batchSize == NoneValue then IntValue(numSamples) else batchSize;
    if numberOfSteps.Some? then Success(Plan(b, numberOfSteps.value))
    else match Divisor(b)
      case Failure(e) => Failure(e)
      case Success(d) => if d == 0 then Failure(ZeroDivisionError) else Success(Plan(b, CeilQuotient(numSamples, d)))
  }

  /** A given step count and a given batch size are kept as they are. Without a step count, a positive batch size gives the fewest steps
      whose batches cover the dataset; a zero batch size, or none with an empty dataset, divides by zero. */
  lemma PlanCoversDataset(numSamples: nat, batchSize: Value, numberOfSteps: Option<int>)
    ensures numberOfSteps.Some? ==>
              (PlanRun(numSamples, batchSize, numberOfSteps).Success? &&
               PlanRun(numSamples, batchSize, numberOfSteps).value.numberOfSteps == numberOfSteps.value)
    ensures batchSize == NoneValue ==> PlanRun(numSamples, batchSize, numberOfSteps).Success? ==>
              PlanRun(numSamples, batchSize, numberOfSteps).value.batchSize == IntValue(numSamples)
    ensures batchSize != NoneValue ==> PlanRun(numSamples, batchSize, numberOfSteps).Success? ==>
              PlanRun(numSamples, batchSize, numberOfSteps).value.batchSize == batchSize
    ensures numberOfSteps.None? && batchSize.IntValue? && batchSize.i > 0 ==>
              var p := PlanRun(numSamples, batchSize, numberOfSteps);
              p.Success? && p.value.numberOfSteps * batchSize.i >= numSamples &&
              (p.value.numberOfSteps - 1) * batchSize.i < numSamples
    ensures numberOfSteps.None? && (batchSize == IntValue(0) || batchSize == BoolValue(false) ||
                                    (batchSize == NoneValue && numSamples == 0)) ==>
              PlanRun(numSamples, batchSize, numberOfSteps) == Failure(ZeroDivisionError)
  {
  }

  /** `k` copies of an event. */
  function Repeat(e: Event, k: nat): (r: seq<Event>)
    ensures |r| == k && forall i :: 0 <= i < k ==> r[i] == e
  {
    if k == 0 then [] else Repeat(e, k - 1) + [e]
  }

  /** How often `e` occurs in `events`. */
  function Count(events: seq<Event>, e: Event): nat
  {
    if events == [] then 0 else Count(events[..|events| - 1], e) + (if events[|events| - 1] == e then 1 else 0)
  }

  lemma {:induction false} CountAppend(a: seq<Event>, b: seq<Event>, e: Event)
    ensures Count(a + b, e) == Count(a, e) + Count(b, e)
    decreases |b|
  {
    if b == [] {
      assert a + b == a;
    } else {
      var b' := b[..|b| - 1];
      assert (a + b)[..|a + b| - 1] == a + b';
      CountAppend(a, b', e);
    }
  }

  lemma {:induction false} CountRepeat(x: Event, k: nat, e: Event)
    ensures Count(Repeat(x, k), e) == if x == e then k else 0
    decreases k
  {
    if k > 0 {
      assert Repeat(x, k)[..k - 1] == Repeat(x, k - 1);
      CountRepeat(x, k - 1, e);
    }
  }

  /** The default `init_model`: exactly one checkpoint directory, restored from its latest checkpoint;
      a directory without a checkpoint gives `None`, which the restore rejects. */
  function InitModelRun(latestCheckpoints: map<string, string>, checkpointDirs: seq<string>): (seq<Event>, Outcome<PyError>)
  {
    if |checkpointDirs| != 1 then ([InitModel(checkpointDirs)], Fail(AssertionError))
    else if checkpointDirs[0] !in latestCheckpoints then ([InitModel(checkpointDirs)], Fail(ValueError("save_path is None")))
    else ([InitModel(checkpointDirs), Restore(latestCheckpoints[checkpointDirs[0]])], Pass)
  }

  /** What a call of `evaluate` does: its events, its outcome, and whether it got as far as building
      the model (which defines the global-step op and the file writer). */
  datatype Run = Run(events: seq<Event>, outcome: Outcome<PyError>, modelBuilt: bool)

  /** The `number_of_steps - 1` ordinary steps (none when that is not positive), then the last step,
      which by default is one more ordinary step. */
  function StepEvents(plan: Plan): seq<Event>
  {
    Repeat(StepLogInfo, Max(plan.numberOfSteps - 1, 0)) + [LastStepLogInfo(plan.batchSize), StepLogInfo]
  }

  function EvaluateRun(numSamples: nat, latestCheckpoints: map<string, string>, tfrecordDir: string,
                       checkpointDirs: CheckpointDirs, numberOfSteps: Option<int>, batchSize: Value,
                       splitName: Value, shuffle: Value, useBatchNorm: Value, batchStat: Value,
                       kwargs: map<string, Value>): Run
  {
    var data := GetData(splitName, tfrecordDir, batchSize, shuffle);
    match PlanRun(numSamples, batchSize, numberOfSteps)
    case Failure(e) => Run([data], Fail(e), false)
    case Success(plan) =>
      var built := [data, Compute(UsedArgScope(batchStat, useBatchNorm), kwargs), ComputeLogData];
      var session := SessionRun(latestCheckpoints, NormalizeCheckpointDirs(checkpointDirs), plan);
      Run(built + session.0, session.1, true)
  }

  /** A run that cannot plan stops after `get_data`; otherwise it builds the model, then runs the session. */
  lemma EvaluateRunCases(numSamples: nat, latestCheckpoints: map<string, string>, tfrecordDir: string,
                         checkpointDirs: CheckpointDirs, numberOfSteps: Option<int>, batchSize: Value,
                         splitName: Value, shuffle: Value, useBatchNorm: Value, batchStat: Value,
                         kwargs: map<string, Value>)
    ensures var run := EvaluateRun(numSamples, latestCheckpoints, tfrecordDir, checkpointDirs, numberOfSteps,
                                   batchSize, splitName, shuffle, useBatchNorm, batchStat, kwargs);
            var data := GetData(splitName, tfrecordDir, batchSize, shuffle);
            match PlanRun(numSamples, batchSize, numberOfSteps)
            case Failure(e) => run == Run([data], Fail(e), false)
            case Success(plan) =>
              var session := SessionRun(latestCheckpoints, NormalizeCheckpointDirs(checkpointDirs), plan);
              run == Run([data, Compute(UsedArgScope(batchStat, useBatchNorm), kwargs), ComputeLogData] + session.0,
                         session.1, true)
  {
  }

  lemma AppendAssoc(a: seq<Event>, b: seq<Event>, c: seq<Event>)
    ensures (a + b) + c == a + (b + c)
  {
  }

  /** Inside the session: `init_model`, and when it succeeds, the steps. */
  function SessionRun(latestCheckpoints: map<string, string>, checkpointDirs: seq<string>, plan: Plan): (seq<Event>, Outcome<PyError>)
  {
    var init := InitModelRun(latestCheckpoints, checkpointDirs);
    if init.1.Fail? then init else (init.0 + StepEvents(plan), Pass)
  }

  /** An evaluation object: the attributes it carries, the dataset its `get_data` provides and the
      latest checkpoint of each training directory are fixed; each hook appends its event to `trace`. */
  class Evaluator {
    var attributes: map<string, Value>
    const numSamples: nat
    const latestCheckpoints: map<string, string>
    var trace: seq<Event>
    var globalStepOp: bool
    var fileWriter: Option<string>

    constructor (attributes: map<string, Value>, numSamples: nat, latestCheckpoints: map<string, string>)
      ensures this.attributes == attributes && this.numSamples == numSamples
      ensures this.latestCheckpoints == latestCheckpoints
      ensures trace == [] && !globalStepOp && fileWriter == None
    {
      this.attributes := attributes;
      this.numSamples := numSamples;
      this.latestCheckpoints := latestCheckpoints;
      trace := [];
      globalStepOp := false;
      fileWriter := None;
    }

    /** `get_data`: loads the split and reports the dataset's size. */
    method GetDataHook(splitName: Value, tfrecordDir: string, batchSize: Value, shuffle: Value) returns (n: nat)
      modifies this`trace
      ensures trace == old(trace) + [GetData(splitName, tfrecordDir, batchSize, shuffle)]
      ensures n == numSamples
    {
      trace := trace + [GetData(splitName, tfrecordDir, batchSize, shuffle)];
      n := numSamples;
    }

    /** `compute(**kwargs)`, run inside the argument scope `scope`. */
    method ComputeHook(scope: ArgScope, kwargs: map<string, Value>)
      modifies this`trace
      ensures trace == old(trace) + [Compute(scope, kwargs)]
    {
      trace := trace + [Compute(scope, kwargs)];
    }

    method ComputeLogDataHook()
      modifies this`trace
      ensures trace == old(trace) + [ComputeLogData]
    {
      trace := trace + [ComputeLogData];
    }

    /** The default `init_model`. */
    method InitModelHook(checkpointDirs: seq<string>) returns (outcome: Outcome<PyError>)
      modifies this`trace
      ensures trace == old(trace) + InitModelRun(latestCheckpoints, checkpointDirs).0
      ensures outcome == InitModelRun(latestCheckpoints, checkpointDirs).1
    {
      trace := trace + [InitModel(checkpointDirs)];
      if |checkpointDirs| != 1 {
        return Fail(AssertionError);
      }
      if checkpointDirs[0] !in latestCheckpoints {
        return Fail(ValueError("save_path is None"));
      }
      trace := trace + [Restore(latestCheckpoints[checkpointDirs[0]])];
      return Pass;
    }

    method StepLogInfoHook()
      modifies this`trace
      ensures trace == old(trace) + [StepLogInfo]
    {
      trace := trace + [StepLogInfo];
    }

    /** The default `last_step_log_info`: one ordinary step; the batch size is not used. */
    method LastStepLogInfoHook(batchSize: Value)
      modifies this`trace
      ensures trace == old(trace) + [LastStepLogInfo(batchSize), StepLogInfo]
    {
      trace := trace + [LastStepLogInfo(batchSize)];
      StepLogInfoHook();
    }

    /** `Evaluate.evaluate`. */
    method Evaluate(tfrecordDir: string, checkpointDirs: CheckpointDirs, logDir: Option<string>,
                    numberOfSteps: Option<int>, batchSize: Value, splitName: Value, shuffle: Value,
                    useBatchNorm: Value, batchStat: Value, kwargs: map<string, Value>) returns (outcome: Outcome<PyError>)
      modifies this`trace, this`globalStepOp, this`fileWriter
      ensures var run := EvaluateRun(numSamples, latestCheckpoints, tfrecordDir, checkpointDirs, numberOfSteps,
                                     batchSize, splitName, shuffle, useBatchNorm, batchStat, kwargs);
              && trace == old(trace) + run.events
              && outcome == run.outcome
              && globalStepOp == (old(globalStepOp) || run.modelBuilt)
              && fileWriter == (if run.modelBuilt && logDir.Some? then logDir else old(fileWriter))
    {
      ghost var t0 := trace;
      ghost var planned := PlanRun(numSamples, batchSize, numberOfSteps);
      EvaluateRunCases(numSamples, latestCheckpoints, tfrecordDir, checkpointDirs, numberOfSteps,
                       batchSize, splitName, shuffle, useBatchNorm, batchStat, kwargs);
      var dirs := NormalizeCheckpointDirs(checkpointDirs);
      var n := GetDataHook(splitName, tfrecordDir, batchSize, shuffle);
      var b := if batchSize == NoneValue then IntValue(n) else batchSize;
      var steps: int;
      if numberOfSteps.None? {
        var d := Divisor(b);
        if d.Failure? {
          assert planned == Failure(d.error);
          return Fail(d.error);
        }
        if d.value == 0 {
          assert planned == Failure(ZeroDivisionError);
          return Fail(ZeroDivisionError);
        }
        steps := CeilQuotient(n, d.value);
      } else {
        steps := numberOfSteps.value;
      }
      var plan := Plan(b, steps);
      assert planned == Success(plan);
      ComputeHook(UsedArgScope(batchStat, useBatchNorm), kwargs);
      ComputeLogDataHook();
      ghost var built := [GetData(splitName, tfrecordDir, batchSize, shuffle),
                          Compute(UsedArgScope(batchStat, useBatchNorm), kwargs), ComputeLogData];
      assert trace == t0 + built;
      globalStepOp := true;
      if logDir.Some? {
        fileWriter := logDir;
      }
      outcome := RunSession(dirs, plan);
      AppendAssoc(t0, built, SessionRun(latestCheckpoints, dirs, plan).0);
    }

    /** The `with tf.Session()` block of `evaluate`: restore the model, then run the steps. */
    method RunSession(checkpointDirs: seq<string>, plan: Plan) returns (outcome: Outcome<PyError>)
      modifies this`trace
      ensures trace == old(trace) + SessionRun(latestCheckpoints, checkpointDirs, plan).0
      ensures outcome == SessionRun(latestCheckpoints, checkpointDirs, plan).1
    {
      var init := InitModelHook(checkpointDirs);
      if init.Fail? {
        return init;
      }
      ghost var before := trace;
      var step := 0;
      while step < plan.numberOfSteps - 1
        invariant 0 <= step <= Max(plan.numberOfSteps - 1, 0)
        invariant trace == before + Repeat(StepLogInfo, step)
      {
        StepLogInfoHook();
        step := step + 1;
      }
      LastStepLogInfoHook(plan.batchSize);
      return Pass;
    }

    /** The driver's loop over a copy of the keyword arguments: a key that names an attribute is
        assigned to it and removed; the rest are returned. */
    method ConsumeAttributeKwargs(kwargs: map<string, Value>) returns (rest: map<string, Value>)
      modifies this`attributes
      ensures attributes == old(attributes) + Overrides(old(attributes), kwargs)
      ensures rest == Forwarded(old(attributes), kwargs)
    {
      var keys := kwargs.Keys;
      rest := kwargs;
      while keys != {}
        invariant keys <= kwargs.Keys
        invariant forall k :: k in attributes <==> k in old(attributes)
        invariant forall k :: k in attributes ==>
                    attributes[k] == if k in kwargs && k !in keys then kwargs[k] else old(attributes)[k]
        invariant forall k :: k in rest <==> k in kwargs && (k in keys || k !in old(attributes))
        invariant forall k :: k in rest ==> rest[k] == kwargs[k]
        decreases keys
      {
        var key :| key in keys;
        if key in attributes {
          attributes := attributes[key := kwargs[key]];
          rest := rest - {key};
        }
        keys := keys - {key};
      }
      assert attributes == old(attributes) + Overrides(old(attributes), kwargs);
      assert rest == Forwarded(old(attributes), kwargs);
    }
  }

  /** The keyword arguments that name an existing attribute. */
  function Overrides(attributes: map<string, Value>, kwargs: map<string, Value>): map<string, Value>
  {
    map k | k in kwargs && k in attributes :: kwargs[k]
  }

  /** The keyword arguments passed on to `evaluate`. */
  function Forwarded(attributes: map<string, Value>, kwargs: map<string, Value>): map<string, Value>
  {
    map k | k in kwargs && k !in attributes :: kwargs[k]
  }

  /** Keyword arguments split three ways: attribute overrides go onto the instance, `evaluate`'s own
      options are bound to them, and everything else reaches `compute` unchanged. Every key goes
      exactly one way. */
  lemma KwargsPartition(attributes: map<string, Value>, kwargs: map<string, Value>)
    ensures Overrides(attributes, kwargs).Keys + Forwarded(attributes, kwargs).Keys == kwargs.Keys
    ensures Overrides(attributes, kwargs).Keys * Forwarded(attributes, kwargs).Keys == {}
    ensures forall k :: k in Overrides(attributes, kwargs) ==> k in attributes && Overrides(attributes, kwargs)[k] == kwargs[k]
    ensures forall k :: k in Forwarded(attributes, kwargs) ==> k !in attributes && Forwarded(attributes, kwargs)[k] == kwargs[k]
    ensures ComputeKwargs(attributes, kwargs) == Forwarded(attributes, kwargs) - OptionNames()
  {
    assert forall k :: k in Overrides(attributes, kwargs).Keys + Forwarded(attributes, kwargs).Keys <==> k in kwargs.Keys;
  }

  /** The keyword parameters of `Evaluate.evaluate` with their defaults. */
  datatype EvaluateOptions = EvaluateOptions(batchSize: Value, splitName: Value, shuffle: Value, useBatchNorm: Value, batchStat: Value)

  function OptionNames(): set<string> { {"batch_size", "split_name", "shuffle", "use_batch_norm", "batch_stat"} }

  /** The parameters the driver itself fills when it calls `evaluate` (the instance, then three positional
      arguments and `number_of_steps`); a keyword argument with one of these names is given twice. */
  function BoundParameters(): set<string> { {"self", "tfrecord_dir", "checkpoint_dirs", "log_dir", "number_of_steps"} }

  /** The driver's own parameters: a call cannot pass them through `**kwargs`. */
  function DriverParameters(): set<string>
  {
    {"evaluate_class", "used_architecture", "tfrecord_dir", "checkpoint_dirs", "log_dir", "number_of_steps"}
  }

  function OptionOr(kwargs: map<string, Value>, name: string, default: Value): Value
  {
    if name in kwargs then kwargs[name] else default
  }

  /** What reaches `compute`: the keyword arguments that are neither attributes nor options. */
  function ComputeKwargs(attributes: map<string, Value>, kwargs: map<string, Value>): map<string, Value>
  {
    map k | k in kwargs && k !in attributes && k !in OptionNames() :: kwargs[k]
  }

  /** Python's binding of `evaluate(tfrecord_dir, checkpoint_dirs, log_dir, number_of_steps=..., **forwarded)`. */
  function BindEvaluateKwargs(forwarded: map<string, Value>): Result<(EvaluateOptions, map<string, Value>), PyError>
  {
    if exists k :: k in forwarded && k in BoundParameters() then Failure(TypeError("got multiple values for an argument"))
    else
      var options := EvaluateOptions(OptionOr(forwarded, "batch_size", IntValue(24)),
                                     OptionOr(forwarded, "split_name", StrValue("validation")),
                                     OptionOr(forwarded, "shuffle", BoolValue(false)),
                                     OptionOr(forwarded, "use_batch_norm", BoolValue(true)),
                                     OptionOr(forwarded, "batch_stat", BoolValue(false)));
      Success((options, map k | k in forwarded && k !in OptionNames() :: forwarded[k]))
  }

  /** The whole driver call: overrides, binding, then `evaluate`. */
  function DriverRun(attributes: map<string, Value>, numSamples: nat, latestCheckpoints: map<string, string>,
                     tfrecordDir: string, checkpointDirs: CheckpointDirs, numberOfSteps: Option<int>,
                     kwargs: map<string, Value>): Run
  {
    match BindEvaluateKwargs(Forwarded(attributes, kwargs))
    case Failure(e) => Run([], Fail(e), false)
    case Success(bound) =>
      var o := bound.0;
      EvaluateRun(numSamples, latestCheckpoints, tfrecordDir, checkpointDirs, numberOfSteps,
                  o.batchSize, o.splitName, o.shuffle, o.useBatchNorm, o.batchStat, bound.1)
  }

  /** The module-level `evaluate`: build the instance, move attribute overrides onto it, call `evaluate`. */
  method Evaluate(attributes: map<string, Value>, numSamples: nat, latestCheckpoints: map<string, string>,
                  tfrecordDir: string, checkpointDirs: CheckpointDirs, logDir: Option<string>,
                  numberOfSteps: Option<int>, kwargs: map<string, Value>) returns (instance: Evaluator, outcome: Outcome<PyError>)
    requires forall k :: k in kwargs ==> k !in DriverParameters()
    ensures fresh(instance)
    ensures instance.attributes == attributes + Overrides(attributes, kwargs)
    ensures var run := DriverRun(attributes, numSamples, latestCheckpoints, tfrecordDir, checkpointDirs, numberOfSteps, kwargs);
            instance.trace == run.events && outcome == run.outcome
  {
    instance := new Evaluator(attributes, numSamples, latestCheckpoints);
    var forwarded := instance.ConsumeAttributeKwargs(kwargs);
    var bound := BindEvaluateKwargs(forwarded);
    if bound.Failure? {
      return instance, Fail(bound.error);
    }
    var o := bound.value.0;
    outcome := instance.Evaluate(tfrecordDir, checkpointDirs, logDir, numberOfSteps,
                                 o.batchSize, o.splitName, o.shuffle, o.useBatchNorm, o.batchStat, bound.value.1);
  }

  /** Through the driver, a key that is neither an attribute nor an option of `evaluate` reaches
      `compute` with its value, and an option given as a keyword argument replaces its default;
      a `self` keyword that is not an attribute is given twice and raises `TypeError`. */
  lemma DriverRoutesKwargs(attributes: map<string, Value>, numSamples: nat, latestCheckpoints: map<string, string>,
                           tfrecordDir: string, checkpointDirs: CheckpointDirs, numberOfSteps: Option<int>,
                           kwargs: map<string, Value>)
    requires forall k :: k in kwargs ==> k !in DriverParameters()
    ensures var run := DriverRun(attributes, numSamples, latestCheckpoints, tfrecordDir, checkpointDirs, numberOfSteps, kwargs);
            && ("self" in kwargs && "self" !in attributes ==> run == Run([], Fail(TypeError("got multiple values for an argument")), false))
            && (run.modelBuilt ==>
                  && run.events[1].Compute?
                  && run.events[1].kwargs == ComputeKwargs(attributes, kwargs)
                  && run.events[1].scope.isTraining == OptionOr(Forwarded(attributes, kwargs), "batch_stat", BoolValue(false))
                  && run.events[0].batchSize == OptionOr(Forwarded(attributes, kwargs), "batch_size", IntValue(24)))
  {
    var forwarded := Forwarded(attributes, kwargs);
    if "self" in kwargs && "self" !in attributes {
      assert "self" in forwarded && "self" in BoundParameters();
    }
    var bound := BindEvaluateKwargs(forwarded);
    if bound.Success? {
      assert bound.value.1 == ComputeKwargs(attributes, kwargs);
    }
  }

  /** The steps of a session: `number_of_steps - 1` ordinary steps (none if that is not positive),
      then the last step, which is given the batch size and runs one ordinary step more. */
  lemma StepEventsCounts(plan: Plan)
    ensures var s := StepEvents(plan);
            var k := Max(plan.numberOfSteps - 1, 0);
            && |s| == k + 2
            && (forall i :: 0 <= i < |s| ==> s[i] == StepLogInfo || s[i] == LastStepLogInfo(plan.batchSize))
            && s[k] == LastStepLogInfo(plan.batchSize)
            && Count(s, StepLogInfo) == k + 1
            && Count(s, LastStepLogInfo(plan.batchSize)) == 1
  {
    var k := Max(plan.numberOfSteps - 1, 0);
    var last := LastStepLogInfo(plan.batchSize);
    var tail := [last, StepLogInfo];
    assert tail == [last] + [StepLogInfo];
    CountSingle(last, StepLogInfo);
    CountSingle(last, last);
    CountSingle(StepLogInfo, StepLogInfo);
    CountSingle(StepLogInfo, last);
    CountAppend([last], [StepLogInfo], StepLogInfo);
    CountAppend([last], [StepLogInfo], last);
    CountAppend(Repeat(StepLogInfo, k), tail, StepLogInfo);
    CountAppend(Repeat(StepLogInfo, k), tail, last);
    CountRepeat(StepLogInfo, k, StepLogInfo);
    CountRepeat(StepLogInfo, k, last);
  }

  /** `evaluate` succeeds exactly when the step count can be worked out, one checkpoint directory is
      given and it holds a checkpoint; a failed run performs no step at all. */
  lemma EvaluateSucceedsWhen(numSamples: nat, latestCheckpoints: map<string, string>, tfrecordDir: string,
                             checkpointDirs: CheckpointDirs, numberOfSteps: Option<int>, batchSize: Value,
                             splitName: Value, shuffle: Value, useBatchNorm: Value, batchStat: Value,
                             kwargs: map<string, Value>)
    ensures var run := EvaluateRun(numSamples, latestCheckpoints, tfrecordDir, checkpointDirs, numberOfSteps,
                                   batchSize, splitName, shuffle, useBatchNorm, batchStat, kwargs);
            var dirs := NormalizeCheckpointDirs(checkpointDirs);
            && (run.outcome == Pass <==> PlanRun(numSamples, batchSize, numberOfSteps).Success? && |dirs| == 1 && dirs[0] in latestCheckpoints)
            && (run.outcome.Fail? ==> forall i :: 0 <= i < |run.events| ==> run.events[i] != StepLogInfo && !run.events[i].LastStepLogInfo?)
  {
  }

  /** On success the hooks run in the order `get_data`, `compute` in the scope
      `is_training = batch_stat`, `compute_log_data`, `init_model` and its restore, and only then the
      steps, of which the ordinary ones number one more than the ordinary steps before the last. */
  lemma EvaluateHookOrder(numSamples: nat, latestCheckpoints: map<string, string>, tfrecordDir: string,
                          checkpointDirs: CheckpointDirs, numberOfSteps: Option<int>, batchSize: Value,
                          splitName: Value, shuffle: Value, useBatchNorm: Value, batchStat: Value,
                          kwargs: map<string, Value>)
    requires EvaluateRun(numSamples, latestCheckpoints, tfrecordDir, checkpointDirs, numberOfSteps,
                         batchSize, splitName, shuffle, useBatchNorm, batchStat, kwargs).outcome == Pass
    ensures var e := EvaluateRun(numSamples, latestCheckpoints, tfrecordDir, checkpointDirs, numberOfSteps,
                                 batchSize, splitName, shuffle, useBatchNorm, batchStat, kwargs).events;
            var dirs := NormalizeCheckpointDirs(checkpointDirs);
            var plan := PlanRun(numSamples, batchSize, numberOfSteps).value;
            var k := Max(plan.numberOfSteps - 1, 0);
            && |e| == k + 7
            && e[0] == GetData(splitName, tfrecordDir, batchSize, shuffle)
            && e[1] == Compute(ArgScope(batchStat, useBatchNorm), kwargs)
            && e[2] == ComputeLogData
            && e[3] == InitModel(dirs)
            && e[4] == Restore(latestCheckpoints[dirs[0]])
            && (forall i :: 5 <= i < |e| ==> e[i] == StepLogInfo || e[i] == LastStepLogInfo(plan.batchSize))
            && e[k + 5] == LastStepLogInfo(plan.batchSize)
            && Count(e, StepLogInfo) == k + 1
            && Count(e, LastStepLogInfo(plan.batchSize)) == 1
  {
    var dirs := NormalizeCheckpointDirs(checkpointDirs);
    var plan := PlanRun(numSamples, batchSize, numberOfSteps).value;
    var head := [GetData(splitName, tfrecordDir, batchSize, shuffle), Compute(ArgScope(batchStat, useBatchNorm), kwargs),
                 ComputeLogData, InitModel(dirs), Restore(latestCheckpoints[dirs[0]])];
    EvaluateRunCases(numSamples, latestCheckpoints, tfrecordDir, checkpointDirs, numberOfSteps,
                     batchSize, splitName, shuffle, useBatchNorm, batchStat, kwargs);
    assert SessionRun(latestCheckpoints, dirs, plan).0 == [InitModel(dirs), Restore(latestCheckpoints[dirs[0]])] + StepEvents(plan);
    assert EvaluateRun(numSamples, latestCheckpoints, tfrecordDir, checkpointDirs, numberOfSteps,
                       batchSize, splitName, shuffle, useBatchNorm, batchStat, kwargs).events == head + StepEvents(plan);
    HeadThenSteps(head, plan);
  }

  /** Five events that are not steps, followed by the steps of `plan`. */
  lemma HeadThenSteps(head: seq<Event>, plan: Plan)
    requires |head| == 5 && forall i :: 0 <= i < 5 ==> head[i] != StepLogInfo && !head[i].LastStepLogInfo?
    ensures var e := head + StepEvents(plan);
            var k := Max(plan.numberOfSteps - 1, 0);
            && |e| == k + 7
            && e[..5] == head
            && (forall i :: 5 <= i < |e| ==> e[i] == StepLogInfo || e[i] == LastStepLogInfo(plan.batchSize))
            && e[k + 5] == LastStepLogInfo(plan.batchSize)
            && Count(e, StepLogInfo) == k + 1
            && Count(e, LastStepLogInfo(plan.batchSize)) == 1
  {
    StepEventsCounts(plan);
    CountAppend(head, StepEvents(plan), StepLogInfo);
    CountAppend(head, StepEvents(plan), LastStepLogInfo(plan.batchSize));
    CountNone(head, StepLogInfo);
    CountNone(head, LastStepLogInfo(plan.batchSize));
  }

  /** Which error a failed run raises: dividing by a zero batch size, dividing by a string batch size,
      not exactly one checkpoint directory, or a directory without a checkpoint; the model is built
      exactly when the step count can be worked out. */
  lemma EvaluateFailures(numSamples: nat, latestCheckpoints: map<string, string>, tfrecordDir: string,
                         checkpointDirs: CheckpointDirs, numberOfSteps: Option<int>, batchSize: Value,
                         splitName: Value, shuffle: Value, useBatchNorm: Value, batchStat: Value,
                         kwargs: map<string, Value>)
    ensures var run := EvaluateRun(numSamples, latestCheckpoints, tfrecordDir, checkpointDirs, numberOfSteps,
                                   batchSize, splitName, shuffle, useBatchNorm, batchStat, kwargs);
            var dirs := NormalizeCheckpointDirs(checkpointDirs);
            var planned := numberOfSteps.Some? || (batchSize.IntValue? && batchSize.i != 0) || batchSize == BoolValue(true) ||
                           (batchSize == NoneValue && numSamples > 0);
            && (run.modelBuilt <==> planned)
            && (run.outcome == Fail(ZeroDivisionError) <==>
                  numberOfSteps.None? && (batchSize == IntValue(0) || batchSize == BoolValue(false) ||
                                          (batchSize == NoneValue && numSamples == 0)))
            && (run.outcome.Fail? && run.outcome.error.TypeError? <==> numberOfSteps.None? && batchSize.StrValue?)
            && (run.outcome == Fail(AssertionError) <==> planned && |dirs| != 1)
            && (run.outcome == Fail(ValueError("save_path is None")) <==> planned && |dirs| == 1 && dirs[0] !in latestCheckpoints)
  {
  }

  /** With the default batch size of 24 and no step count, 100 samples take five steps, the last of
      which is told the batch size. */
  lemma DefaultBatchScenario(latestCheckpoints: map<string, string>, tfrecordDir: string, dir: string,
                             splitName: Value, shuffle: Value, useBatchNorm: Value, batchStat: Value,
                             kwargs: map<string, Value>)
    requires dir in latestCheckpoints
    ensures var run := EvaluateRun(100, latestCheckpoints, tfrecordDir, OnePath(dir), None,
                                   IntValue(24), splitName, shuffle, useBatchNorm, batchStat, kwargs);
            && run.outcome == Pass
            && Count(run.events, StepLogInfo) == 5
            && Count(run.events, LastStepLogInfo(IntValue(24))) == 1
  {
    CeilQuotientPositive(100, 24);
    EvaluateSucceedsWhen(100, latestCheckpoints, tfrecordDir, OnePath(dir), None,
                         IntValue(24), splitName, shuffle, useBatchNorm, batchStat, kwargs);
    EvaluateHookOrder(100, latestCheckpoints, tfrecordDir, OnePath(dir), None,
                      IntValue(24), splitName, shuffle, useBatchNorm, batchStat, kwargs);
  }

  /** Without a batch size or a step count a non-empty dataset is read as one batch in one step. */
  lemma WholeDatasetScenario(numSamples: nat, latestCheckpoints: map<string, string>, tfrecordDir: string, dir: string,
                             splitName: Value, shuffle: Value, useBatchNorm: Value, batchStat: Value,
                             kwargs: map<string, Value>)
    requires dir in latestCheckpoints && numSamples > 0
    ensures var run := EvaluateRun(numSamples, latestCheckpoints, tfrecordDir, OnePath(dir), None,
                                   NoneValue, splitName, shuffle, useBatchNorm, batchStat, kwargs);
            && run.outcome == Pass
            && Count(run.events, StepLogInfo) == 1
            && Count(run.events, LastStepLogInfo(IntValue(numSamples))) == 1
  {
    CeilQuotientPositive(numSamples, numSamples);
    assert (numSamples + numSamples - 1) / numSamples == 1;
    EvaluateSucceedsWhen(numSamples, latestCheckpoints, tfrecordDir, OnePath(dir), None,
                         NoneValue, splitName, shuffle, useBatchNorm, batchStat, kwargs);
    EvaluateHookOrder(numSamples, latestCheckpoints, tfrecordDir, OnePath(dir), None,
                      NoneValue, splitName, shuffle, useBatchNorm, batchStat, kwargs);
  }

  /** A step count of one or less still runs the last step, and nothing else. */
  lemma FewStepsScenario(numSamples: nat, latestCheckpoints: map<string, string>, tfrecordDir: string, dir: string,
                         steps: int, batchSize: Value, splitName: Value, shuffle: Value, useBatchNorm: Value,
                         batchStat: Value, kwargs: map<string, Value>)
    requires dir in latestCheckpoints && steps <= 1
    ensures var run := EvaluateRun(numSamples, latestCheckpoints, tfrecordDir, OnePath(dir), Some(steps),
                                   batchSize, splitName, shuffle, useBatchNorm, batchStat, kwargs);
            && run.outcome == Pass
            && |run.events| == 7
            && Count(run.events, StepLogInfo) == 1
  {
    EvaluateSucceedsWhen(numSamples, latestCheckpoints, tfrecordDir, OnePath(dir), Some(steps),
                         batchSize, splitName, shuffle, useBatchNorm, batchStat, kwargs);
    EvaluateHookOrder(numSamples, latestCheckpoints, tfrecordDir, OnePath(dir), Some(steps),
                      batchSize, splitName, shuffle, useBatchNorm, batchStat, kwargs);
  }

  /** An empty dataset with a positive batch size plans zero steps, yet the last step still runs once. */
  lemma EmptyDatasetScenario(latestCheckpoints: map<string, string>, tfrecordDir: string, dir: string, batch: int,
                             splitName: Value, shuffle: Value, useBatchNorm: Value, batchStat: Value,
                             kwargs: map<string, Value>)
    requires dir in latestCheckpoints && batch > 0
    ensures PlanRun(0, IntValue(batch), None) == Success(Plan(IntValue(batch), 0))
    ensures var run := EvaluateRun(0, latestCheckpoints, tfrecordDir, OnePath(dir), None,
                                   IntValue(batch), splitName, shuffle, useBatchNorm, batchStat, kwargs);
            && run.outcome == Pass
            && Count(run.events, StepLogInfo) == 1
            && Count(run.events, LastStepLogInfo(IntValue(batch))) == 1
  {
    CeilQuotientPositive(0, batch);
    EvaluateSucceedsWhen(0, latestCheckpoints, tfrecordDir, OnePath(dir), None,
                         IntValue(batch), splitName, shuffle, useBatchNorm, batchStat, kwargs);
    EvaluateHookOrder(0, latestCheckpoints, tfrecordDir, OnePath(dir), None,
                      IntValue(batch), splitName, shuffle, useBatchNorm, batchStat, kwargs);
  }

  lemma CountSingle(x: Event, e: Event)
    ensures Count([x], e) == if x == e then 1 else 0
  {
    assert [x][..0] == [];
  }

  /** No occurrence of `e` means a count of zero. */
  lemma {:induction false} CountNone(events: seq<Event>, e: Event)
    ensures (forall i :: 0 <= i < |events| ==> events[i] != e) ==> Count(events, e) == 0
    decreases |events|
  {
    if events != [] {
      CountNone(events[..|events| - 1], e);
    }
  }
}
