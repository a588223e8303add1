// The data-handling core of the agent-based model base class: one-hot
// encoding of labels, the option vector, the merging of sampled files into
// one batch source, the choice of batch rows, and the model's file name.
//
// Arrays are modelled by their first axis: an array of `n` rows is a
// `seq` of `n` opaque rows. Random draws are supplied by the caller.

module AgentModel {
  import opened Wrappers
  import opened PyStrings

  /** The Python and numpy errors these operations can raise. */
  datatype PyError =
    | IndexError          // an array index out of range
    | ValueError          // a negative array dimension, or randint with an empty range
    | RuntimeError(msg: string)

  // ---------------------------------------------------------------------
  // One-hot vectors.
  // ---------------------------------------------------------------------

  /** The one-hot vector of `target` over `dim` classes: all zero for a target outside `[0, dim)`. */
  function OneHotVector(target: int, dim: nat): (v: seq<real>)
    ensures |v| == dim
  {
    seq(dim, k => if k == target then 1.0 else 0.0)
  }

  /** The index of the first 1.0 in `v` at or after `from`, or -1 when there is none. */
  function Decode(v: seq<real>, from: nat): (r: int)
    requires from <= |v|
    ensures r == -1 || (from <= r < |v| && v[r] == 1.0)
    ensures forall k :: from <= k < |v| && (r == -1 || k < r) ==> v[k] != 1.0
    decreases |v| - from
  {
    if from == |v| then -1
    else if v[from] == 1.0 then from
    else Decode(v, from + 1)
  }

  /** A one-hot vector decodes back to its target, and to -1 when the target is negative. */
  lemma OneHotRoundTrip(target: int, dim: nat)
    ensures Decode(OneHotVector(target, dim), 0) == if 0 <= target < dim then target else -1
  {
    var v := OneHotVector(target, dim);
    var r := Decode(v, 0);
    if 0 <= target < dim {
      assert v[target] == 1.0;
    }
  }

  /** A one-hot vector holds at most one 1.0, and none when the target is negative. */
  lemma OneHotAtMostOne(target: int, dim: nat, k1: nat, k2: nat)
    requires k1 < dim && k2 < dim
    requires OneHotVector(target, dim)[k1] == 1.0 && OneHotVector(target, dim)[k2] == 1.0
    ensures k1 == k2 == target
  {
  }

  /**
   * A target array as numpy sees it: a 1-D vector, or a 2-D matrix with
   * `cols` columns (kept apart so that a matrix with no rows keeps its width).
   */
  datatype LabelArray = Vector(v: seq<int>) | Matrix(rows: seq<seq<int>>, cols: nat)

  predicate Rectangular(f: LabelArray)
  {
    f.Matrix? ==> forall i :: 0 <= i < |f.rows| ==> |f.rows[i]| == f.cols
  }

  /** `np.expand_dims(f, -1)` on a vector: n labels become n rows of one column. */
  function AsMatrix(f: LabelArray): (m: LabelArray)
    requires Rectangular(f)
    ensures m.Matrix? && Rectangular(m)
    ensures f.Vector? ==> |m.rows| == |f.v| && m.cols == 1
                          && forall i :: 0 <= i < |f.v| ==> m.rows[i] == [f.v[i]]
    ensures f.Matrix? ==> m == f
  {
    match f
    case Vector(v) => Matrix(seq(|v|, i requires 0 <= i < |v| => [v[i]]), 1)
    case Matrix(_, _) => f
  }

  /** No target of the matrix `m` reaches `dim`. */
  predicate LabelsBelow(m: LabelArray, dim: int)
    requires m.Matrix? && Rectangular(m)
  {
    forall i, j :: 0 <= i < |m.rows| && 0 <= j < m.cols ==> m.rows[i][j] < dim
  }

  /**
   * `toOneHot2D`: a zero array of shape `rows x cols x dim` in which entry
   * `(i, j, k)` is set to 1.0 for every non-negative target `k` at `(i, j)`.
   * A target of `dim` or more is an index error; a negative `dim` is refused
   * by `np.zeros`.
   */
  method ToOneHot2D(f: LabelArray, dim: int) returns (r: Result<array3<real>, PyError>)
    requires Rectangular(f)
    ensures var m := AsMatrix(f);
      && (r.Success? <==> dim >= 0 && LabelsBelow(m, dim))
      && (dim < 0 ==> r == Failure(ValueError))
      && (r.Failure? && dim >= 0 ==> r.error == IndexError)
      && (r.Success? ==>
            && fresh(r.value)
            && r.value.Length0 == |m.rows| && r.value.Length1 == m.cols && r.value.Length2 == dim
            && forall i, j, k :: 0 <= i < |m.rows| && 0 <= j < m.cols && 0 <= k < dim ==>
                 r.value[i, j, k] == OneHotVector(m.rows[i][j], dim)[k])
  {
    if dim < 0 {
      return Failure(ValueError);
    }
    var m := AsMatrix(f);
    var oh := new real[|m.rows|, m.cols, dim]((i, j, k) => 0.0);
    var i := 0;
    while i < |m.rows|
      invariant 0 <= i <= |m.rows|
      invariant forall a, b :: 0 <= a < i && 0 <= b < m.cols ==> m.rows[a][b] < dim
      invariant forall a, b, k :: 0 <= a < |m.rows| && 0 <= b < m.cols && 0 <= k < dim ==>
                  oh[a, b, k] == if a < i then OneHotVector(m.rows[a][b], dim)[k] else 0.0
    {
      var j := 0;
      while j < m.cols
        invariant 0 <= j <= m.cols
        invariant forall a, b :: 0 <= a < i && 0 <= b < m.cols ==> m.rows[a][b] < dim
        invariant forall b :: 0 <= b < j ==> m.rows[i][b] < dim
        invariant forall a, b, k :: 0 <= a < |m.rows| && 0 <= b < m.cols && 0 <= k < dim ==>
                    oh[a, b, k] == if a < i || (a == i && b < j) then OneHotVector(m.rows[a][b], dim)[k] else 0.0
      {
        var idx := m.rows[i][j];
        if idx >= dim {
          return Failure(IndexError);
        }
        if idx >= 0 {
          oh[i, j, idx] := 1.0;
        }
        j := j + 1;
      }
      i := i + 1;
    }
    return Success(oh);
  }

  /** numpy's reading of an index into an axis of length `n`: negative indices count from the end. */
  function AxisIndex(index: int, n: nat): (r: Option<nat>)
    ensures r.Some? <==> -(n as int) <= index < n
    ensures r.Some? ==> r.value < n && (r.value == index || r.value == index + n)
  {
    if 0 <= index < n then Some(index)
    else if -(n as int) <= index < 0 then Some(index + n)
    else None
  }

  /** The message `_numLabels` raises without a task definition. */
  const NoTaskdefMessage: string :=
    "must provide a task definition including" + "all actions and descriptions."

  /**
   * `_makeOption1h`: a `1 x numLabels` zero matrix with a 1.0 in the column
   * `option`. `numLabels` is `None` when the model has no task definition.
   */
  function MakeOption1h(numLabels: Option<nat>, option: int): (r: Result<seq<seq<real>>, PyError>)
    ensures numLabels.None? ==> r == Failure(RuntimeError(NoTaskdefMessage))
    ensures numLabels.Some? ==> (r.Success? <==> -(numLabels.value as int) <= option < numLabels.value)
    ensures r.Failure? && numLabels.Some? ==> r.error == IndexError
    ensures r.Success? ==> |r.value| == 1 && |r.value[0]| == numLabels.value
    ensures r.Success? && option >= 0 ==> Decode(r.value[0], 0) == option
    ensures r.Success? && option < 0 ==> Decode(r.value[0], 0) == option + numLabels.value
    ensures r.Success? ==> r.value[0] == OneHotVector(AxisIndex(option, numLabels.value).value, numLabels.value)
  {
    match numLabels
    case None => Failure(RuntimeError(NoTaskdefMessage))
    case Some(n) =>
      match AxisIndex(option, n)
      case None => Failure(IndexError)
      case Some(col) =>
        OneHotRoundTrip(col, n);
        Success([OneHotVector(col, n)])
  }

  // ---------------------------------------------------------------------
  // Merging sampled files.
  // ---------------------------------------------------------------------

  /** The values of `key` in the items of `items`, in order. */
  function ValuesOf<R>(items: seq<(string, seq<R>)>, key: string): seq<seq<R>>
  {
    if items == [] then []
    else ValuesOf(items[..|items| - 1], key)
         + (if items[|items| - 1].0 == key then [items[|items| - 1].1] else [])
  }

  /** All rows of a list of arrays, concatenated along the first axis. */
  function Concat<R>(vs: seq<seq<R>>): seq<R>
  {
    if vs == [] then [] else Concat(vs[..|vs| - 1]) + vs[|vs| - 1]
  }

  /** The items of the files in the order the loops visit them. */
  function Flatten<R>(files: seq<seq<(string, seq<R>)>>): seq<(string, seq<R>)>
  {
    if files == [] then [] else Flatten(files[..|files| - 1]) + files[|files| - 1]
  }

  /**
   * What the merge does with one item: insert the value if the key is new,
   * then append it unless it has no rows.
   */
  function MergeItem<R>(data: map<string, seq<R>>, key: string, value: seq<R>): map<string, seq<R>>
  {
    var d := if key !in data then data[key := value] else data;
    if |value| == 0 then d else d[key := d[key] + value]
  }

  /** The data after merging a list of items into empty data. */
  function MergeAll<R>(items: seq<(string, seq<R>)>): map<string, seq<R>>
  {
    if items == [] then map[]
    else MergeItem(MergeAll(items[..|items| - 1]), items[|items| - 1].0, items[|items| - 1].1)
  }

  /**
   * The merged array of a key is its first value followed by all its
   * values in order: a first value with rows appears twice, empty values add
   * nothing, and a key is present exactly when some item carries it.
   */
  lemma {:induction false} MergeAllValue<R>(items: seq<(string, seq<R>)>, key: string)
    ensures key in MergeAll(items) <==> ValuesOf(items, key) != []
    ensures key in MergeAll(items) ==>
              MergeAll(items)[key] == ValuesOf(items, key)[0] + Concat(ValuesOf(items, key))
  {
    if items != [] {
      var init, last := items[..|items| - 1], items[|items| - 1];
      MergeAllValue(init, key);
      var vs := ValuesOf(init, key);
      if last.0 == key {
        assert ValuesOf(items, key) == vs + [last.1];
        assert (vs + [last.1])[..|vs|] == vs;
        if vs == [] {
          assert Concat([last.1]) == Concat([]) + last.1;
        } else {
          assert (vs + [last.1])[0] == vs[0];
          Assoc(vs[0], Concat(vs), last.1);
        }
      } else {
        assert ValuesOf(items, key) == vs;
      }
    }
  }

  lemma Assoc<T>(a: seq<T>, b: seq<T>, c: seq<T>)
    ensures (a + b) + c == a + (b + c)
  {
  }

  lemma FlattenStep<R>(files: seq<seq<(string, seq<R>)>>, i: nat, j: nat)
    requires i < |files| && j < |files[i]|
    ensures Flatten(files[..i]) + files[i][..j + 1] == (Flatten(files[..i]) + files[i][..j]) + [files[i][j]]
  {
    assert files[i][..j + 1] == files[i][..j] + [files[i][j]];
  }

  lemma FlattenNext<R>(files: seq<seq<(string, seq<R>)>>, i: nat)
    requires i < |files|
    ensures Flatten(files[..i + 1]) == Flatten(files[..i]) + files[i][..|files[i]|]
  {
    assert files[..i + 1][..i] == files[..i];
    assert files[i][..|files[i]|] == files[i];
  }

  /**
   * The merge loop of `trainGenerator` / `testGenerator`: for each sampled
   * file, in order, and each of its items, merge the item into `data`.
   */
  method MergeFiles<R>(files: seq<seq<(string, seq<R>)>>) returns (data: map<string, seq<R>>)
    ensures data == MergeAll(Flatten(files))
    ensures forall key :: key in data <==> ValuesOf(Flatten(files), key) != []
    ensures forall key :: key in data ==>
              data[key] == ValuesOf(Flatten(files), key)[0] + Concat(ValuesOf(Flatten(files), key))
  {
    data := map[];
    var i := 0;
    while i < |files|
      invariant 0 <= i <= |files|
      invariant data == MergeAll(Flatten(files[..i]))
    {
      var j := 0;
      assert Flatten(files[..i]) + files[i][..0] == Flatten(files[..i]);
      while j < |files[i]|
        invariant 0 <= j <= |files[i]|
        invariant data == MergeAll(Flatten(files[..i]) + files[i][..j])
      {
        var (key, value) := files[i][j];
        FlattenStep(files, i, j);
        data := MergeItem(data, key, value);
        j := j + 1;
      }
      FlattenNext(files, i);
      i := i + 1;
    }
    assert files[..|files|] == files;
    forall key | true
      ensures key in data <==> ValuesOf(Flatten(files), key) != []
      ensures key in data ==>
                data[key] == ValuesOf(Flatten(files), key)[0] + Concat(ValuesOf(Flatten(files), key))
    {
      MergeAllValue(Flatten(files), key);
    }
  }

  // ---------------------------------------------------------------------
  // The model object: its file name, validation steps and batch choice.
  // ---------------------------------------------------------------------

  /** `os.path.join(a, b)`: `b` alone when absolute, otherwise joined with one separator. */
  function Join(a: string, b: string): (r: string)
    ensures StartsWith(b, "/") ==> r == b
    ensures !StartsWith(b, "/") ==> exists sep :: (sep == "" || sep == "/") && r == a + sep + b
    ensures !StartsWith(b, "/") && a != [] && a[|a| - 1] != '/' ==> r == a + "/" + b
    ensures !StartsWith(b, "/") && (a == [] || a[|a| - 1] == '/') ==> r == a + b
  {
    if StartsWith(b, "/") then b
    else if a == [] || a[|a| - 1] == '/' then
      assert a + "" + b == a + b;
      a + b
    else a + "/" + b
  }

  /** The name a model's weights are saved under. */
  function ModelName(directory: string, model: string, descriptor: string,
                     task: Option<string>, features: Option<string>): string
  {
    var name := Join(directory, model + "_" + descriptor);
    var name := if task.Some? then name + "_" + task.value else name;
    if features.Some? then name + "_" + features.value else name
  }

  /**
   * Two models that differ only in their features are saved under different
   * names, and a model with features ends its name with them.
   */
  lemma ModelNameSeparatesFeatures(directory: string, model: string, descriptor: string,
                                   task: Option<string>, f1: Option<string>, f2: Option<string>)
    requires f1 != f2
    ensures ModelName(directory, model, descriptor, task, f1) != ModelName(directory, model, descriptor, task, f2)
  {
    var joined := Join(directory, model + "_" + descriptor);
    var base := if task.Some? then joined + "_" + task.value else joined;
    if f1.Some? && f2.Some? {
      SuffixDistinct(base, f1.value, f2.value);
    }
  }

  lemma SuffixDistinct(base: string, x: string, y: string)
    requires x != y
    ensures base + "_" + x != base + "_" + y
  {
    assert (base + "_" + x)[|base| + 1..] == x;
    assert (base + "_" + y)[|base| + 1..] == y;
  }

  /** The model name always starts from the joined directory and prefix. */
  lemma ModelNamePrefix(directory: string, model: string, descriptor: string,
                        task: Option<string>, features: Option<string>)
    ensures StartsWith(ModelName(directory, model, descriptor, task, features),
                       Join(directory, model + "_" + descriptor))
  {
    var base := Join(directory, model + "_" + descriptor);
    var name := ModelName(directory, model, descriptor, task, features);
    var mid := if task.Some? then base + "_" + task.value else base;
    assert mid[..|base|] == base;
    assert name[..|mid|] == mid;
    assert name[..|base|] == mid[..|base|];
  }

  /** Whether index 0 of a batch is forced: `r > 0` for the draw `r` from `[0, choose_initial)`. */
  predicate ForcesFirst(r: int)
  {
    r > 0
  }

  /** The rows of `f` at the positions `idx` (numpy fancy indexing). */
  function Gather<R>(f: seq<R>, idx: seq<int>): (r: Result<seq<R>, PyError>)
    ensures r.Success? <==> forall i :: 0 <= i < |idx| ==> -|f| <= idx[i] < |f|
    ensures r.Success? ==> |r.value| == |idx|
    ensures r.Success? ==> forall i :: 0 <= i < |idx| && idx[i] >= 0 ==> r.value[i] == f[idx[i]]
    ensures r.Success? ==> forall i :: 0 <= i < |idx| && idx[i] < 0 ==> r.value[i] == f[idx[i] + |f|]
  {
    if forall i :: 0 <= i < |idx| ==> -|f| <= idx[i] < |f| then
      Success(seq(|idx|, i requires 0 <= i < |idx| => f[AxisIndex(idx[i], |f|).value]))
    else Failure(IndexError)
  }

  /** The batch rows `_yield` takes: the draws, with the first set to row 0 when `r > 0`. */
  function Chosen(draws: seq<int>, r: int): seq<int>
  {
    if ForcesFirst(r) && |draws| > 0 then draws[0 := 0] else draws
  }

  /** Every index in `idx` names a row of `x`: `x` has more rows than the largest index. */
  predicate HasRows<R>(x: seq<R>, idx: seq<int>)
  {
    forall i :: 0 <= i < |idx| ==> idx[i] < |x|
  }

  /**
   * `[x[idx] for x in xs]` for non-negative indices: stops at the first
   * array too short for one of them, with numpy's index error.
   */
  method GatherEach<R>(xs: seq<seq<R>>, idx: seq<int>) returns (res: Result<seq<seq<R>>, PyError>)
    requires forall i :: 0 <= i < |idx| ==> 0 <= idx[i]
    ensures res.Success? <==> forall a :: 0 <= a < |xs| ==> HasRows(xs[a], idx)
    ensures res.Failure? ==> res.error == IndexError
    ensures res.Success? ==>
              && |res.value| == |xs|
              && forall a :: 0 <= a < |xs| ==> |res.value[a]| == |idx|
    ensures res.Success? ==> forall a, i :: 0 <= a < |xs| && 0 <= i < |idx| ==> res.value[a][i] == xs[a][idx[i]]
  {
    var out: seq<seq<R>> := [];
    var a := 0;
    while a < |xs|
      invariant 0 <= a <= |xs| && |out| == a
      invariant forall b :: 0 <= b < a ==> HasRows(xs[b], idx) && Gather(xs[b], idx) == Success(out[b])
    {
      var g := Gather(xs[a], idx);
      if g.Failure? {
        return Failure(g.error);
      }
      out := out + [g.value];
      a := a + 1;
    }
    return Success(out);
  }

  class AgentBasedModel {
    var name: string
    var validationSteps: Option<int>
    var batchSize: nat
    var chooseInitial: int

    /**
     * The part of `__init__` that sets the name: `<model>_<descriptor>`
     * joined onto the model directory, then `_<task>` and `_<features>`
     * appended when they are set.
     */
    constructor (directory: string, model: string, descriptor: string,
                 task: Option<string>, features: Option<string>,
                 validationSteps: Option<int>, batchSize: nat, chooseInitial: int)
      ensures this.name == ModelName(directory, model, descriptor, task, features)
      ensures this.validationSteps == validationSteps
      ensures this.batchSize == batchSize && this.chooseInitial == chooseInitial
    {
      var namePrefix := model + "_" + descriptor;
      var n := Join(directory, namePrefix);
      if task.Some? {
        n := n + "_" + task.value;
      }
      if features.Some? {
        n := n + "_" + features.value;
      }
      this.name := n;
      this.validationSteps := validationSteps;
      this.batchSize := batchSize;
      this.chooseInitial := chooseInitial;
    }

    /**
     * The set-up at the start of `testGenerator`: a validation-step count
     * left unset becomes one more than the number of test examples; a count
     * already set is kept.
     */
    method TestGeneratorSetup(testLength: nat)
      modifies this
      ensures old(validationSteps).None? ==> validationSteps == Some(testLength + 1)
      ensures old(validationSteps).Some? ==> validationSteps == old(validationSteps)
      ensures name == old(name) && batchSize == old(batchSize) && chooseInitial == old(chooseInitial)
    {
      if validationSteps.None? {
        validationSteps := Some(testLength + 1);
      }
    }

    /**
     * The row choice of `_yield`: `draws` are the `batch_size` draws from
     * `[0, nSamples)` and `r` the draw from `[0, choose_initial)`; when
     * `r > 0` the first position is overwritten with row 0. A range that is
     * empty makes the draw raise, and forcing the first position of an empty
     * batch is an index error.
     */
    method SelectRows(nSamples: int, draws: seq<int>, r: int) returns (res: Result<seq<int>, PyError>)
      requires nSamples > 0 ==> |draws| == batchSize && forall i :: 0 <= i < |draws| ==> 0 <= draws[i] < nSamples
      requires chooseInitial > 0 ==> 0 <= r < chooseInitial
      ensures res.Success? <==> nSamples > 0 && chooseInitial > 0 && !(ForcesFirst(r) && batchSize == 0)
      ensures res.Failure? ==> res.error == if nSamples <= 0 || chooseInitial <= 0 then ValueError else IndexError
      ensures res.Success? ==>
                && |res.value| == batchSize
                && (forall i :: 0 <= i < batchSize ==> 0 <= res.value[i] < nSamples)
                && (ForcesFirst(r) ==> res.value[0] == 0)
                && (forall i :: 0 <= i < batchSize && (i > 0 || !ForcesFirst(r)) ==> res.value[i] == draws[i])
    ensures res.Success? ==> res.value == Chosen(draws, r)
    {
      if nSamples <= 0 || chooseInitial <= 0 {
        return Failure(ValueError);
      }
      var idx := new int[|draws|](i requires 0 <= i < |draws| => draws[i]);
      if ForcesFirst(r) {
        if idx.Length == 0 {
          return Failure(IndexError);
        }
        idx[0] := 0;
      }
      return Success(idx[..]);
    }

    /**
     * `_yield`: choose the rows from the length of the first feature array,
     * then take them from every feature array and every target array, in
     * order. An empty feature list fails on `features[0]`; a feature or
     * target array too short for one of the chosen rows is an index error.
     */
    method Yield<R>(features: seq<seq<R>>, targets: seq<seq<R>>, draws: seq<int>, r: int)
      returns (res: Result<(seq<seq<R>>, seq<seq<R>>), PyError>)
      requires |features| > 0 && |features[0]| > 0 ==>
                 |draws| == batchSize && forall i :: 0 <= i < |draws| ==> 0 <= draws[i] < |features[0]|
      requires chooseInitial > 0 ==> 0 <= r < chooseInitial
      ensures |features| == 0 ==> res == Failure(IndexError)
      ensures |features| > 0 && (|features[0]| == 0 || chooseInitial <= 0) ==> res == Failure(ValueError)
      ensures var idx := Chosen(draws, r);
        |features| > 0 && |features[0]| > 0 && chooseInitial > 0 ==>
          && (res.Success? <==>
                && !(ForcesFirst(r) && batchSize == 0)
                && (forall a :: 0 <= a < |features| ==> HasRows(features[a], idx))
                && (forall t :: 0 <= t < |targets| ==> HasRows(targets[t], idx)))
          && (res.Failure? ==> res.error == IndexError)
      ensures var idx := Chosen(draws, r);
        res.Success? ==>
          && |idx| == batchSize
          && |res.value.0| == |features| && |res.value.1| == |targets|
          && (forall a :: 0 <= a < |features| ==> |res.value.0[a]| == batchSize)
          && (forall t :: 0 <= t < |targets| ==> |res.value.1[t]| == batchSize)
          && (forall a, i :: 0 <= a < |features| && 0 <= i < batchSize ==>
                0 <= idx[i] < |features[a]| && res.value.0[a][i] == features[a][idx[i]])
          && (forall t, i :: 0 <= t < |targets| && 0 <= i < batchSize ==>
                0 <= idx[i] < |targets[t]| && res.value.1[t][i] == targets[t][idx[i]])
      ensures res.Success? && ForcesFirst(r) ==>
                forall a :: 0 <= a < |features| ==> 0 < |features[a]| && res.value.0[a][0] == features[a][0]
    {
      if |features| == 0 {
        return Failure(IndexError);
      }
      var rows := SelectRows(|features[0]|, draws, r);
      if rows.Failure? {
        return Failure(rows.error);
      }
      var idx := rows.value;
      var fs := GatherEach(features, idx);
      if fs.Failure? {
        return Failure(fs.error);
      }
      var ts := GatherEach(targets, idx);
      if ts.Failure? {
        return Failure(ts.error);
      }
      if ForcesFirst(r) {
        assert idx[0] == 0;
      }
      return Success((fs.value, ts.value));
    }
  }
}
