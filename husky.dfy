// The Husky robot's option constants and the selection of training rows for
// one option's policy. Images, poses and actions are opaque values; the
// scaling of images to [0, 1] is outside the model.

module Husky {
  import opened Wrappers

  /** Number of high-level options of the Husky simulation: four objects to drive to, and the null option. */
  const NumOptions: nat := 5

  /** The option that means "no option". */
  const NullOption: nat := 4

  /** `HuskyNumOptions()`. */
  function HuskyNumOptions(): (r: nat)
    ensures r > 0
  {
    NumOptions
  }

  /** `HuskyNullOption()`: the null option is the last valid option index. */
  function HuskyNullOption(): (r: nat)
    ensures r < HuskyNumOptions() && r + 1 == HuskyNumOptions()
  {
    NullOption
  }

  /** The positions, in increasing order, whose label equals `option`. */
  function MatchIndices(labels: seq<int>, option: int): (r: seq<nat>)
    ensures |r| == CountMatches(labels, option)
    ensures forall k :: 0 <= k < |r| ==> r[k] < |labels| && labels[r[k]] == option
  {
    if labels == [] then []
    else
      var front := MatchIndices(labels[..|labels| - 1], option);
      if labels[|labels| - 1] == option then front + [|labels| - 1] else front
  }

  /** The number of labels equal to `option` (numpy's `count_nonzero(labels == option)`). */
  function CountMatches(labels: seq<int>, option: int): nat
  {
    if labels == [] then 0
    else CountMatches(labels[..|labels| - 1], option) + if labels[|labels| - 1] == option then 1 else 0
  }

  /**
   * The kept positions are exactly those with a matching label, each once,
   * in increasing order.
   */
  lemma {:induction false} MatchIndicesSpec(labels: seq<int>, option: int)
    ensures var r := MatchIndices(labels, option);
            && (forall i :: 0 <= i < |labels| ==> (labels[i] == option <==> i in r))
            && (forall j, k :: 0 <= j < k < |r| ==> r[j] < r[k])
  {
    if labels != [] {
      var init := labels[..|labels| - 1];
      MatchIndicesSpec(init, option);
      var front := MatchIndices(init, option);
      forall i | 0 <= i < |labels| ensures labels[i] == option <==> i in MatchIndices(labels, option) {
        if i < |init| {
          assert labels[i] == init[i];
          assert i != |labels| - 1;
        }
      }
    }
  }

  /** Boolean-mask indexing: the elements at the matching positions, in order. */
  function Keep<T>(xs: seq<T>, idx: seq<nat>): (r: seq<T>)
    requires forall k :: 0 <= k < |idx| ==> idx[k] < |xs|
    ensures |r| == |idx| && forall k :: 0 <= k < |idx| ==> r[k] == xs[idx[k]]
  {
    seq(|idx|, k requires 0 <= k < |idx| => xs[idx[k]])
  }

  /** The inputs `[I0, I, p]` and the target `[a]` of the policy for one option. */
  datatype PolicyData<Img, Pose, Act> =
    | NoData
    | Data(i0: seq<Img>, images: seq<Img>, poses: seq<Pose>, actions: seq<Act>)

  /**
   * `GetPolicyHuskyData`: the rows whose label is `option`, in order, the
   * same rows of image, pose and action; `I0` is the first kept image once
   * per kept row. No matching row gives the empty pair. numpy raises
   * `IndexError` when a mask does not have the length of the array it
   * selects from.
   */
  function GetPolicyHuskyData<Img, Pose, Act>(option: int, image: seq<Img>, pose: seq<Pose>,
                                              action: seq<Act>, labels: seq<int>): (r: Result<PolicyData<Img, Pose, Act>, string>)
    ensures CountMatches(labels, option) == 0 <==> r == Success(NoData)
    ensures r.Failure? <==> CountMatches(labels, option) > 0 && !(|image| == |pose| == |action| == |labels|)
    ensures r.Success? && r.value.Data? ==>
              var n, idx := CountMatches(labels, option), MatchIndices(labels, option);
              && |r.value.i0| == |r.value.images| == |r.value.poses| == |r.value.actions| == n > 0
              && (forall k :: 0 <= k < n ==> r.value.i0[k] == r.value.images[0])
              && (forall k :: 0 <= k < n ==> r.value.images[k] == image[idx[k]] && r.value.poses[k] == pose[idx[k]]
                                             && r.value.actions[k] == action[idx[k]])
  {
    var idx := MatchIndices(labels, option);
    if |idx| == 0 then Success(NoData)
    else if !(|image| == |pose| == |action| == |labels|) then Failure("IndexError: boolean index did not match")
    else
      var images := Keep(image, idx);
      Success(Data(seq(|idx|, _ => images[0]), images, Keep(pose, idx), Keep(action, idx)))
  }

  /**
   * Row `k` of the output is a matching input row, later output rows come
   * from later input rows, and every matching input row is kept.
   */
  lemma PolicyRowsAreMatchingRows<Img, Pose, Act>(option: int, image: seq<Img>, pose: seq<Pose>, action: seq<Act>,
                                                  labels: seq<int>)
    requires |image| == |pose| == |action| == |labels| && CountMatches(labels, option) > 0
    ensures var r, idx := GetPolicyHuskyData(option, image, pose, action, labels), MatchIndices(labels, option);
            && r.Success? && r.value.Data?
            && (forall k :: 0 <= k < |idx| ==> labels[idx[k]] == option && r.value.images[k] == image[idx[k]])
            && (forall j, k :: 0 <= j < k < |idx| ==> idx[j] < idx[k])
            && (forall i :: 0 <= i < |labels| && labels[i] == option ==> i in idx)
  {
    MatchIndicesSpec(labels, option);
  }
}
