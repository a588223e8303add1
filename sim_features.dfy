// The feature functions of the simulation: the table of available feature
// names and the two feature classes. The world and its camera are outside
// the model; a depth capture is a parameter.

module SimFeatures {
  import opened Wrappers

  const NullName := "null"
  const DepthName := "depth"

  /** `GetAvailableFeatures`. */
  function GetAvailableFeatures(): (r: seq<string>)
    ensures |r| == 2 && r[0] == NullName && r[1] == DepthName
  {
    [NullName, DepthName]
  }

  datatype FeatureKind = EmptyFeatures | DepthImageFeatures

  datatype FeatureError =
    | NameError(name: string)
    | NotImplementedError(message: string)
    | Unimplemented(message: string)

  function Lookup(name: string): Option<FeatureKind>
  {
    if name == NullName then Some(EmptyFeatures)
    else if name == DepthName then Some(DepthImageFeatures)
    else None
  }

  /**
   * `GetFeatures` as written: an unknown name reaches the handler, whose
   * message refers to `task`, a name the module never defines, so it raises
   * `NameError` instead of the intended `NotImplementedError`.
   */
  function GetFeaturesAsWritten(name: string): (r: Result<FeatureKind, FeatureError>)
    ensures r.Success? <==> Lookup(name).Some?
    ensures r.Success? ==> r.value == Lookup(name).value
    ensures r.Failure? ==> r.error == NameError("task")
  {
    match Lookup(name)
    case Some(kind) => Success(kind)
    case None => Failure(NameError("task"))
  }

  const MessageStart := "Feature function "
  const MessageEnd := " not implemented!"

  /** `GetFeatures` with the message naming the requested feature function. */
  function GetFeatures(name: string): (r: Result<FeatureKind, FeatureError>)
    ensures r.Success? <==> name in GetAvailableFeatures()
    ensures name == NullName ==> r == Success(EmptyFeatures)
    ensures name == DepthName ==> r == Success(DepthImageFeatures)
    ensures r.Failure? ==> r.error == NotImplementedError(MessageStart + name + MessageEnd)
  {
    match Lookup(name)
    case Some(kind) => Success(kind)
    case None => Failure(NotImplementedError(MessageStart + name + MessageEnd))
  }

  /** For an unknown name the function as written raises the wrong error; the two agree on every known name. */
  lemma UnknownFeatureRaisesNameError(name: string)
    ensures name !in GetAvailableFeatures() ==>
              GetFeaturesAsWritten(name) == Failure(NameError("task"))
              && GetFeatures(name).Failure? && GetFeatures(name).error.NotImplementedError?
    ensures name in GetAvailableFeatures() ==> GetFeaturesAsWritten(name) == GetFeatures(name)
  {
  }

  /** `compute`: the empty features are the single value 0; the depth features are the camera's depth capture. */
  function Compute(kind: FeatureKind, depthCapture: seq<real>): (r: seq<real>)
    ensures kind == EmptyFeatures ==> r == [0.0]
    ensures kind == DepthImageFeatures ==> r == depthCapture
  {
    match kind
    case EmptyFeatures => [0.0]
    case DepthImageFeatures => depthCapture
  }

  const NotYetUpdateBounds := "feature.updateBounds not yet implemented!"
  const NotYetGetBounds := "feature.getBounds not yet implemented!"

  /** `updateBounds`: no effect for the empty features; always raises for the depth features. */
  function UpdateBounds(kind: FeatureKind): (r: Result<(), FeatureError>)
    ensures r.Success? <==> kind == EmptyFeatures
  {
    match kind
    case EmptyFeatures => Success(())
    case DepthImageFeatures => Failure(Unimplemented(NotYetUpdateBounds))
  }

  /** `getBounds`: `([0], [0])` for the empty features; always raises for the depth features. */
  function GetBounds(kind: FeatureKind): (r: Result<(seq<real>, seq<real>), FeatureError>)
    ensures r.Success? <==> kind == EmptyFeatures
  {
    match kind
    case EmptyFeatures => Success(([0.0], [0.0]))
    case DepthImageFeatures => Failure(Unimplemented(NotYetGetBounds))
  }

  /** Whenever bounds are available, the computed features lie within them, entry by entry. */
  lemma ComputeWithinBounds(kind: FeatureKind, depthCapture: seq<real>)
    requires GetBounds(kind).Success?
    ensures var lower, upper, f := GetBounds(kind).value.0, GetBounds(kind).value.1, Compute(kind, depthCapture);
            |lower| == |f| == |upper| && forall i :: 0 <= i < |f| ==> lower[i] <= f[i] <= upper[i]
  {
  }
}
