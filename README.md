# costar_plan core, modelled in Dafny

This project models the deterministic core of the CoSTAR task-planning
repository (`costar_plan`) and proves properties of it.

- **Task-graph executor (`StackManager`).** A table maps action names to
  (service, request) pairs. Another table maps each parent to its list of
  child actions. `tick` polls the one outstanding remote call. It then waits,
  finishes, fails, or dispatches one child of the current action. The remote
  service is an oracle: each tick is told whether the call is still running,
  whether it completed ok, and whether the next call could be started. The
  random child choice is an index the caller supplies.
- **Stacking plan (`stack.py`).** The two plan builders fill a `StackManager`
  through `addRequest`. The stacking builder makes a depth-5 tree per ordered
  triple of distinct colours. The module also holds the smart-move request
  builders and the retry loops around every remote move. A service reply is
  an oracle `respond(k)`, the reply to the k-th call.
- **Agent-based model base class (`abstract.py`).** Covers one-hot encoding,
  the option vector, the merge of sampled files, the choice of batch rows,
  and the model's file name.
- **Hypertree inference (`costar_hypertree_inference.py`).** Covers URL and
  file-name handling, extension stripping, the per-frame file list, and the
  file/frame counters of the evaluation loop.
- **Dispatch tables.**
  - `MakeModel` and `GetModels` of `util.py`. Network classes are opaque tags.
  - `GetFeatures` and the two feature classes of the simulation.
- **Husky helpers.** The option constants and the label filter of
  `GetPolicyHuskyData`.
- **UR5/Robotiq interface.** `arm`, `gripper`, `act` and `place`, modelled as
  an appended log of simulator commands.

One module per source file: `StackManagement`, `StackPlan` (with the shape
theorems in `StackShape` and the move closures in `StackMoves`), `AgentModel`,
`HyperTreeInference`, `ModelFactory`, `SimFeatures`, `Husky` and `Ur5Robotiq`.
`Wrappers` holds `Option` and `Result`. `PyStrings` holds the Python string
operations the core uses: `lower`, `in`, `rfind` and `replace(x, '')`.

Integers are unbounded throughout. Python's `%` is written out where its
sign matters (`PyMod`). numpy's negative indexing is written out where an
index can be negative (`AxisIndex`, `Gather`).

## Model

| member | source | states |
|---|---|---|
| StackManagement.ParentList | ctp_integration/python/ctp_integration/stack_manager.py:31-32 | A non-list `parents` argument becomes a one-element list; a list is used as given |
| StackManagement.AppendUnderKeys | ctp_integration/python/ctp_integration/stack_manager.py:33-35 | After the parent loop a key is in the children table exactly when it was there before or is listed |
| StackManagement.AppendUnderLists | ctp_integration/python/ctp_integration/stack_manager.py:33-36 | Each parent's new list is its old list followed by `name` once per time the parent is listed |
| StackManagement.AppendUnderEffect | ctp_integration/python/ctp_integration/stack_manager.py:33-36 | A listed parent's list gains `name` at its end; an unlisted parent's list is unchanged |
| StackManagement.AddRequestEffect | ctp_integration/python/ctp_integration/stack_manager.py:29-36 | `addRequest` stores the pair under `name` (replacing any earlier one), keeps every other action's pair, and appends `name` to exactly the listed parents' lists |
| StackManagement.AddRequestWellFormed | ctp_integration/python/ctp_integration/stack_manager.py:29-36 | After `addRequest`, every child list is still non-empty and every child is still a registered action |
| StackManagement.AddRequestKeepsChildren | ctp_integration/python/ctp_integration/stack_manager.py:33-36 | A child of a parent stays its child after later `addRequest` calls |
| StackManagement.Step | ctp_integration/python/ctp_integration/stack_manager.py:38-70 | Definition of one `tick`; its cases are stated through the `Tick…` lemmas and the walk property through `TickExtendsPath` and `RunFollowsGraph` |
| StackManagement.InitialState | ctp_integration/python/ctp_integration/stack_manager.py:24-27 | `reset` gives no current action, `done` false, `ok` true |
| StackManagement.TickAfterFailure | ctp_integration/python/ctp_integration/stack_manager.py:40-45 | With `ok` false, `tick` sets `done`, returns false, starts nothing and keeps `current`, whatever the service reports |
| StackManagement.TickWhenDone | ctp_integration/python/ctp_integration/stack_manager.py:44-45 | With `done` set, `tick` returns `ok` and changes nothing, so a second tick gives the same step (idempotent) |
| StackManagement.TickWhileRunning | ctp_integration/python/ctp_integration/stack_manager.py:46-49 | While the call is still running, `tick` returns no value and leaves `current`, `done` and `ok` unchanged |
| StackManagement.TickOnCallFailure | ctp_integration/python/ctp_integration/stack_manager.py:56-60 | A completed call that reports not-ok sets `ok` false and `done` true, keeps `current`, dispatches nothing, and returns `done`, that is true |
| StackManagement.TickOnCallSuccess | ctp_integration/python/ctp_integration/stack_manager.py:50-70 | After an ok call: if `current` has children, the chosen child's request is started and becomes `current` (a failed start raises and leaves `current`); if it has none, the run ends with `done` true and returns true |
| StackManagement.TickStartsRegistered | ctp_integration/python/ctp_integration/stack_manager.py:62-69 | In a well-formed graph, every started request is the registered pair of an action |
| StackManagement.TickExtendsPath | ctp_integration/python/ctp_integration/stack_manager.py:62-69 | The dispatched action is a child of the previous current action (of the root when none), so the walk from the root grows by one step |
| StackManagement.PathSurvivesAddRequest | ctp_integration/python/ctp_integration/stack_manager.py:29-36 | A walk through the graph stays a walk after more requests are added |
| StackManagement.RunWhenDone | ctp_integration/python/ctp_integration/stack_manager.py:44-45 | Over any sequence of polls and per-tick random draws, a finished run stays exactly as it is |
| StackManagement.RunAfterFailure | ctp_integration/python/ctp_integration/stack_manager.py:40-45 | Once `ok` is false, whatever is polled or drawn, no later tick dispatches an action and `current` never changes |
| StackManagement.RunFollowsGraph | ctp_integration/python/ctp_integration/stack_manager.py:38-70 | Every action a polling loop reaches, with a fresh `randint` draw on every tick, is the end of a walk from the root through the children table |
| StackManagement.StackManager.constructor | ctp_integration/python/ctp_integration/stack_manager.py:15-22 | A new manager has empty tables and the reset state |
| StackManagement.StackManager.Reset | ctp_integration/python/ctp_integration/stack_manager.py:24-27 | `reset` restores the initial flags and leaves `reqs` and `children` untouched |
| StackManagement.StackManager.AddRequest | ctp_integration/python/ctp_integration/stack_manager.py:29-36 | The in-place update gives the graph `AddedRequest` describes and keeps the flags and the graph's well-formedness |
| StackManagement.StackManager.Tick | ctp_integration/python/ctp_integration/stack_manager.py:38-70 | The in-place tick gives the state, return value and started request of `Step`, keeps the tables, and keeps `current` at the end of a walk from the root |
| StackPlan.MakeSmartGraspRequest | ctp_integration/python/ctp_integration/stack.py:454-469 | Raises "color … not recognized" exactly for a colour outside the list; otherwise the request has `obj_class` `<c>_cube` and `name` `grasp_<c>_cube` |
| StackPlan.MakeSmartReleaseRequest | ctp_integration/python/ctp_integration/stack.py:471-490 | Raises exactly for an unknown colour; otherwise the request has `name` `place_on_<c>` and exactly one constraint, z above 0.015 |
| StackPlan.RequestNamesDistinct | ctp_integration/python/ctp_integration/stack.py:464-485 | Requests for different colours have different names, and no grasp request has the name of a release request |
| StackPlan.CheckBlocks1And2 | ctp_integration/python/ctp_integration/stack.py:569-580 | Definition of the check; stated through `StackShape.StackPlacesPassCheck` |
| StackPlan.NodeName | ctp_integration/python/ctp_integration/stack.py:408-433 | Definition of the formatted action names; injectivity is stated through `StackShape.NameInjective` |
| StackPlan.NodeParent | ctp_integration/python/ctp_integration/stack.py:410-434 | Definition of each action's `addRequest` parent; stated through `StackShape.StackSingleParent` and `StackShape.ExpectedChildrenMember` |
| StackPlan.NodeRequest | ctp_integration/python/ctp_integration/stack.py:403-430 | Definition of each action's service and request; stated through `StackShape.StackRequests` |
| StackPlan.TopBlocks | ctp_integration/python/ctp_integration/stack.py:421-434 | Definition of the innermost loop's actions in call order; stated through `AddTopBlocks` and `StackShape.StackNodesMember` |
| StackPlan.PlaceBlocks | ctp_integration/python/ctp_integration/stack.py:412-434 | Definition of the middle loop's actions in call order; stated through `AddPlaceBlocks` and `StackShape.StackNodesMember` |
| StackPlan.RootBlocks | ctp_integration/python/ctp_integration/stack.py:406-434 | Definition of the outer loop's actions in call order; stated through `GetStackManager`, `StackShape.StackNodesMember` and `StackShape.StackFanOut` |
| StackPlan.ApplyNodesWellFormed | ctp_integration/python/ctp_integration/stack.py:406-434 | Any run of the builder's `addRequest` calls leaves a well-formed graph |
| StackPlan.AddTopBlocks | ctp_integration/python/ctp_integration/stack.py:421-434 | The innermost loop adds, for each third colour distinct from the first two, the grab, place and home actions, each under the previous one |
| StackPlan.AddPlaceBlocks | ctp_integration/python/ctp_integration/stack.py:412-434 | The middle loop adds a place action under the root for each second colour distinct from the first, then its subtrees |
| StackPlan.GetStackManager | ctp_integration/python/ctp_integration/stack.py:392-436 | The built manager's graph is the one the plan's node list describes, with the reset state |
| StackPlan.GetKittingManager | ctp_integration/python/ctp_integration/stack.py:438-452 | The built manager's graph holds one root grab per colour and nothing else |
| StackShape.NameInjective | ctp_integration/python/ctp_integration/stack.py:406-434 | Over colours none of which is a prefix of another, two plan actions share a name exactly when they are the same action |
| StackShape.NamesCollideWithoutPrefixFreedom | ctp_integration/python/ctp_integration/stack.py:426 | Without that condition names collide: with colours "re" and "dblue", one level-3 name stands for two different actions |
| StackShape.StackChildren | ctp_integration/python/ctp_integration/stack.py:406-434 | The child list stored under the root and under every plan action is exactly the names of its plan children, in loop order |
| StackShape.StackFanOut | ctp_integration/python/ctp_integration/stack.py:406-434 | n roots; n-1 children under a root, n-2 under a place, one under each level-3 and level-4 action, none under a home move |
| StackShape.ExpectedChildrenMember | ctp_integration/python/ctp_integration/stack.py:406-434 | An action is a plan child of a node exactly when it is a valid action whose parent is that node |
| StackShape.StackNodesMember | ctp_integration/python/ctp_integration/stack.py:406-434 | The builder adds exactly the valid actions over the colours: distinct colours per triple |
| StackShape.StackRequests | ctp_integration/python/ctp_integration/stack.py:406-434 | Each action is registered with its own request: grasps of the first and third colour, a release on the second, a level-4 release for the FIRST colour, the home move |
| StackShape.StackSingleParent | ctp_integration/python/ctp_integration/stack.py:406-434 | An action's name is in the child list of a node exactly when that node is its plan parent |
| StackShape.StackPlacesPassCheck | ctp_integration/python/ctp_integration/stack.py:569-580 | Every place action of the plan passes `_checkBlocks1And2`: no block is placed on itself |
| StackShape.KittingChildren | ctp_integration/python/ctp_integration/stack.py:438-452 | The kitting graph's root list is one grab per colour, and no action has children |
| StackMoves.Failing | ctp_integration/python/ctp_integration/stack.py:137 | Definition of the reply test (no reply, or `failure` in the lower-cased ack); stated through `FailingIgnoresCase`, `Verdict` and the retry loops |
| StackMoves.FailingIgnoresCase | ctp_integration/python/ctp_integration/stack.py:311 | Whether a reply counts as failed does not depend on the case of its ack |
| StackMoves.Verdict | ctp_integration/python/ctp_integration/stack.py:314-316 | The check after a loop passes exactly for a good reply; a missing reply fails on reading `ack`; a failing ack raises `RuntimeError` with the message |
| StackMoves.Retry | ctp_integration/python/ctp_integration/stack.py:308-316 | One to ten calls; all but the last failed; a failing end only after ten calls; success exactly when one of the first ten replies is good |
| StackMoves.RetryUnbounded | ctp_integration/python/ctp_integration/stack.py:359-363 | With `tries` never incremented, the loop ends only at the first good reply |
| StackMoves.WaitForReply | ctp_integration/python/ctp_integration/stack.py:125-127 | The forward-kinematics loop returns the first present answer |
| StackMoves.Home | ctp_integration/python/ctp_integration/stack.py:63-78 | One call with no retry: success exactly when the reply is good |
| StackMoves.RandomHome | ctp_integration/python/ctp_integration/stack.py:114-154 | Success exactly when one of ten move replies is good; it returns the home joints with the last joint moved by the draw, and the first forward-kinematics pose |
| StackMoves.HomeViaPose | ctp_integration/python/ctp_integration/stack.py:168-193 | Success exactly when both bounded retries succeed; the second runs only after the first succeeded |
| StackMoves.MoveToPose | ctp_integration/python/ctp_integration/stack.py:299-316 | A missing pose raises without calling; otherwise one to ten calls, succeeding exactly when one of ten replies is good |
| StackMoves.ReturnCheck | ctp_integration/python/ctp_integration/stack.py:385-389 | Returns true exactly when the last reply is good |
| StackMoves.Update | ctp_integration/python/ctp_integration/stack.py:348-389 | Moves home until a good reply, then returns to `q0` (raising when none was saved) or makes one extra home call, whose reply decides success or `RuntimeError`; success returns true. A later good reply is required only on the return-to-`q0` path, the one whose loop has no bound |
| AgentModel.OneHotVector | costar_models/python/costar_models/abstract.py:250-256 | A vector of length `dim` with one 1.0 at the target, all zeros for a target outside `[0, dim)` |
| AgentModel.OneHotRoundTrip | costar_models/python/costar_models/abstract.py:250-256 | Decoding a one-hot vector gives back its target, and -1 for a negative (unlabelled) target |
| AgentModel.OneHotAtMostOne | costar_models/python/costar_models/abstract.py:243-256 | A one-hot vector holds at most one 1.0, and none for a negative target |
| AgentModel.AsMatrix | costar_models/python/costar_models/abstract.py:246-247 | A 1-D label array of n entries becomes n rows of one column; a matrix is kept |
| AgentModel.ToOneHot2D | costar_models/python/costar_models/abstract.py:241-257 | Shape is the label shape plus `dim`; entry (i,j,k) is 1.0 exactly when label (i,j) is k and non-negative; a label of `dim` or more is an index error |
| AgentModel.AxisIndex | costar_models/python/costar_models/abstract.py:295 | numpy accepts an index in `[-n, n)`, and a negative one counts from the end |
| AgentModel.MakeOption1h | costar_models/python/costar_models/abstract.py:293-296 | Without a task definition it raises; otherwise a 1×numLabels vector whose only 1.0 is at column `option` (from the end when negative); an out-of-range option is an index error |
| AgentModel.MergeItem | costar_models/python/costar_models/abstract.py:135-139 | Definition of one step of the merge loop; stated through `MergeAllValue` and `MergeFiles` |
| AgentModel.MergeAll | costar_models/python/costar_models/abstract.py:131-139 | Definition of the merge of a list of items into empty data; stated through `MergeAllValue` and `MergeFiles` |
| AgentModel.MergeAllValue | costar_models/python/costar_models/abstract.py:131-139 | A key is merged exactly when some item has it; its array is its first value followed by all its values in order, so a non-empty first value appears twice |
| AgentModel.MergeFiles | costar_models/python/costar_models/abstract.py:129-139 | The merge loop over the sampled files gives `MergeAll` of their items in file order |
| AgentModel.Join | costar_models/python/costar_models/abstract.py:54 | An absolute second part replaces the first; otherwise a `/` is inserted exactly when the first part is non-empty and does not already end in one, so the parts are joined with at most one separator |
| AgentModel.ModelName | costar_models/python/costar_models/abstract.py:50-59 | Definition of the saved name; stated through `ModelNameSeparatesFeatures`, `ModelNamePrefix` and the constructor |
| AgentModel.ModelNameSeparatesFeatures | costar_models/python/costar_models/abstract.py:50-59 | Models that differ only in their features get different names |
| AgentModel.ModelNamePrefix | costar_models/python/costar_models/abstract.py:50-59 | The name always starts with the directory joined with `<model>_<descriptor>` |
| AgentModel.Gather | costar_models/python/costar_models/abstract.py:166-167 | Fancy indexing succeeds exactly when every index is in `[-n, n)`; row i of the result is row `idx[i]` for a non-negative index and row `idx[i] + n` for a negative one |
| AgentModel.GatherEach | costar_models/python/costar_models/abstract.py:166-167 | `[x[idx] for x in xs]` succeeds exactly when every array has a row at each index, otherwise `IndexError`; row i of output a is `xs[a][idx[i]]` |
| AgentModel.AgentBasedModel.constructor | costar_models/python/costar_models/abstract.py:50-59 | The name is `ModelName` of the arguments: `_<task>` and `_<features>` are appended only when set |
| AgentModel.AgentBasedModel.TestGeneratorSetup | costar_models/python/costar_models/abstract.py:142-146 | An unset validation-step count becomes the test length plus one; a set count is kept |
| AgentModel.AgentBasedModel.SelectRows | costar_models/python/costar_models/abstract.py:159-165 | `batch_size` row indices in `[0, n)`: the draws, with the first replaced by 0 when `r > 0` (`Chosen`); an empty range raises, and forcing the first index of an empty batch is an index error |
| AgentModel.AgentBasedModel.Yield | costar_models/python/costar_models/abstract.py:159-167 | An empty feature list raises `IndexError` on `features[0]`; an empty first array or `choose_initial` ≤ 0 raises `ValueError`; otherwise it succeeds exactly when every feature and every target array has a row at each chosen index (and the batch is non-empty when `r > 0`), else `IndexError`. On success row i of each feature and each target array is that array's row `Chosen(draws, r)[i]`, and row 0 when `r > 0` |
| HyperTreeInference.ExtractFilename | costar_hyper/costar_hypertree_inference.py:151-156 | The result has no `/` and is the suffix of the URL after its last `/`; a URL with no `/` is returned whole |
| HyperTreeInference.LastMatch | costar_hyper/costar_hypertree_inference.py:161-165 | The chosen extension is one of the candidates |
| HyperTreeInference.LastMatchSpec | costar_hyper/costar_hypertree_inference.py:161-165 | None exactly when no candidate occurs; otherwise the last candidate in list order that occurs in the name |
| HyperTreeInference.FindExtension | costar_hyper/costar_hypertree_inference.py:161-165 | The scan loop finds `LastMatch` over `.tar`, `.tar.gz`, `.tar.bz`, `.zip` when extracting, and nothing otherwise |
| HyperTreeInference.TarGzWins | costar_hyper/costar_hypertree_inference.py:161-165 | A name with `.tar.gz` (and no `.tar.bz` or `.zip`) contains `.tar` too, but `.tar.gz` wins because it is tested later |
| HyperTreeInference.GetFileFromUrlAsWritten | costar_hyper/costar_hypertree_inference.py:158-159 | As written, every call raises `NameError`: the helper is called without `self.` |
| HyperTreeInference.GetFileFromUrl | costar_hyper/costar_hypertree_inference.py:158-183 | Succeeds exactly when the final path is a file; the path is the fetched one with every occurrence of the found extension removed (its length drops by the removed count); otherwise the error carries url, extension, hash and path |
| HyperTreeInference.FetchRaisesAsWritten | costar_hyper/costar_hypertree_inference.py:158-172 | Where the fetched file exists, the code as written raises while the corrected function returns the path |
| HyperTreeInference.ZipIsStripped | costar_hyper/costar_hypertree_inference.py:163-170 | A name with `.zip` is always stripped of `.zip`, the last extension tested |
| HyperTreeInference.FileRows | costar_hyper/costar_hypertree_inference.py:96-98 | A file of n frames has labels (file, 1) … (file, n), none when n is not positive |
| HyperTreeInference.FrameRows | costar_hyper/costar_hypertree_inference.py:96-98 | Every frame label names an existing file and a frame number of at least 1 |
| HyperTreeInference.Expanded | costar_hyper/costar_hypertree_inference.py:96-98 | The per-frame file list has one entry per frame label |
| HyperTreeInference.FrameRowsStep | costar_hyper/costar_hypertree_inference.py:96-98 | Consecutive labels stay in one file with the next frame, or move to frame 1 of the next file |
| HyperTreeInference.FrameRowsLast | costar_hyper/costar_hypertree_inference.py:96-98 | The last label is the last frame of the last file |
| HyperTreeInference.FrameRowsFirst | costar_hyper/costar_hypertree_inference.py:96-98 | The first label is frame 1 of file 0 |
| HyperTreeInference.PyMod | costar_hyper/costar_hypertree_inference.py:144 | Python's `%`: the remainder has the sign of the divisor and is smaller in magnitude |
| HyperTreeInference.CounterStep | costar_hyper/costar_hypertree_inference.py:136-149 | One pass: a matching name keeps the file and its length; a different name moves to the next file and its length (an index error past the end); the row written is (file, frame) |
| HyperTreeInference.FrameIncrement | costar_hyper/costar_hypertree_inference.py:144 | `1 % frame_len` is 1 for more than one frame, 0 for one frame, and `frame_len + 1` for a negative length |
| HyperTreeInference.FailurePersists | costar_hyper/costar_hypertree_inference.py:136-149 | Once a pass raises, the loop's outcome is that error |
| HyperTreeInference.CorrectedCountersFollowLabels | costar_hyper/costar_hypertree_inference.py:133-149 | With increment 1 and the file list as reference, the first n passes write exactly the first n frame labels |
| HyperTreeInference.CorrectedCountersRows | costar_hyper/costar_hypertree_inference.py:133-149 | With non-empty files and no name equal to the one before it, the corrected loop writes exactly the frame labels, numbered from 1 within each file |
| HyperTreeInference.OneFrameFileNumberedZero | costar_hyper/costar_hypertree_inference.py:144 | As written, the frame of a one-frame file is numbered 0, while its label is frame 1 |
| HyperTreeInference.ScriptReferenceOverruns | costar_hyper/costar_hypertree_inference.py:138 | When the reference is the module-level path string, the first frame already moves to file 1 and a one-file run overruns the length list |
| HyperTreeInference.HyperTreeInference.constructor | costar_hyper/costar_hypertree_inference.py:54 | The lists start empty |
| HyperTreeInference.HyperTreeInference.InferenceModeGen | costar_hyper/costar_hypertree_inference.py:81-98 | Each file's length is its goal-index count minus one; goal-index lists accumulate; the per-frame list repeats each name that many times, in input order |
| HyperTreeInference.CountersAfter | costar_hyper/costar_hypertree_inference.py:133-149 | Definition of the counters after n passes; stated through `FailurePersists`, `CorrectedCountersFollowLabels`, `CorrectedCountersRows`, `OneFrameFileNumberedZero` and `ScriptReferenceOverruns` |
| HyperTreeInference.HyperTreeInference.EvaluateCounters | costar_hyper/costar_hypertree_inference.py:133-149 | The counter loop returns exactly the rows of `CountersAfter`, one per step, or its error |
| HyperTreeInference.ExpandedNext | costar_hyper/costar_hypertree_inference.py:96-98 | Expanding one more file appends its name once per frame |
| ModelFactory.FamilyOf | costar_models/python/costar_models/util.py:70-268 | The features string selects a family only when it is exactly `multi`, `jigsaws`, `costar` or `husky` |
| ModelFactory.FamilySettings | costar_models/python/costar_models/util.py:177-268 | jigsaws: jpeg, SuturingNumOptions; costar: jpeg, 42 options, null option 41, split 0.2; husky: no jpeg, 5 options, null option 4 (the last); multi: nothing set |
| ModelFactory.MultiModel | costar_models/python/costar_models/util.py:82-141 | Definition of the `multi` table; stated through `Choose`, `ChooseKnown`, `GetModelsAllMulti` and `PredictorUnderMulti` |
| ModelFactory.JigsawsModel | costar_models/python/costar_models/util.py:148-176 | Definition of the `jigsaws` table; stated through `Choose`, `ChooseKnown` and `PredictorUnknownToJigsaws` |
| ModelFactory.CostarModel | costar_models/python/costar_models/util.py:188-206 | Definition of the `costar` table; stated through `Choose`, `ChooseKnown` and `PredictorUnknownToCostar` |
| ModelFactory.HuskyModel | costar_models/python/costar_models/util.py:220-261 | Definition of the `husky` table; stated through `Choose`, `ChooseKnown` and `PredictorUnderHusky` |
| ModelFactory.Choose | costar_models/python/costar_models/util.py:49-278 | A `None` model fails on `lower`; an unknown family raises `NotImplementedError`; an unknown model raises `NotImplementedError` only under multi (elsewhere the assignment on `None` fails first); success gives the family's class and settings |
| ModelFactory.ModelCaseInsensitive | costar_models/python/costar_models/util.py:68 | The model string is matched without regard to case |
| ModelFactory.FeaturesCaseSensitive | costar_models/python/costar_models/util.py:68-70 | The features string is not lower-cased: `"MULTI"` is no family |
| ModelFactory.DiscriminatorGoalFlags | costar_models/python/costar_models/util.py:136-257 | In every family, `discriminator` builds the discriminator with goal flag false and `goal_discriminator` the same class with goal flag true |
| ModelFactory.OnlyMultiDropsFeatures | costar_models/python/costar_models/util.py:70-268 | Only the multi family builds its classes without passing `features=` |
| ModelFactory.ChooseKnown | costar_models/python/costar_models/util.py:68-278 | A lower-case model name under a family gets that table's class and settings, or the family's failure when unknown |
| ModelFactory.PredictorUnderMulti | costar_models/python/costar_models/util.py:82-85 | `predictor` under multi builds `RobotMultiPredictionSampler` with no settings |
| ModelFactory.PredictorUnderHusky | costar_models/python/costar_models/util.py:235-268 | `predictor` under husky builds `HuskyRobotMultiPredictionSampler` with the Husky settings |
| ModelFactory.PredictorUnknownToCostar | costar_models/python/costar_models/util.py:183-213 | `predictor` under costar fails on the `load_jpeg` assignment to `None` |
| ModelFactory.PredictorUnknownToJigsaws | costar_models/python/costar_models/util.py:142-181 | `predictor` under jigsaws fails on the `load_jpeg` assignment to `None` |
| ModelFactory.GetModels | costar_models/python/costar_models/util.py:280-301 | Twenty entries, `None` first |
| ModelFactory.GetModelsAllMulti | costar_models/python/costar_models/util.py:70-141 | Every offered name is in the multi table, while the `None` offered first fails on `lower` |
| ModelFactory.ModelInstance.constructor | costar_models/python/costar_models/util.py:67-268 | A new instance has its class's construction and no family attributes set |
| ModelFactory.MakeModel | costar_models/python/costar_models/util.py:49-278 | Succeeds exactly when `Choose` does, with the same error; a new instance of the chosen class whose attributes are the family's settings, assigned in place |
| Husky.HuskyNumOptions | costar_models/python/costar_models/husky.py:32-33 | At least one option |
| Husky.HuskyNullOption | costar_models/python/costar_models/husky.py:35-36 | The null option is the last valid option index |
| Husky.MatchIndices | costar_models/python/costar_models/husky.py:123-127 | One index per matching label, each pointing at a label equal to the option |
| Husky.MatchIndicesSpec | costar_models/python/costar_models/husky.py:123-127 | The kept positions are exactly those with a matching label, in increasing order |
| Husky.Keep | costar_models/python/costar_models/husky.py:125-127 | Boolean-mask selection: element k of the result is the element at the k-th kept position |
| Husky.GetPolicyHuskyData | costar_models/python/costar_models/husky.py:118-133 | No match gives the empty pair; a mask of the wrong length is an index error; otherwise images, poses and actions are the matching rows, in order, and `I0` repeats the first kept image once per row |
| Husky.PolicyRowsAreMatchingRows | costar_models/python/costar_models/husky.py:123-131 | Each output row is a matching input row, order is kept, and every matching row is kept |
| Ur5Robotiq.ArmCommands | costar_task_plan/python/costar_task_plan/simulation/robots/ur5_robotiq.py:95-96 | One motor command per position |
| Ur5Robotiq.GripperCommands | costar_task_plan/python/costar_task_plan/simulation/robots/ur5_robotiq.py:103-111 | Eight motor commands |
| Ur5Robotiq.PlaceResets | costar_task_plan/python/costar_task_plan/simulation/robots/ur5_robotiq.py:73-84 | One reset per arm joint, then six gripper resets |
| Ur5Robotiq.ArmTargets | costar_task_plan/python/costar_task_plan/simulation/robots/ur5_robotiq.py:95-96 | `arm` sends element i to joint i and commands no other joint |
| Ur5Robotiq.GripperTargets | costar_task_plan/python/costar_task_plan/simulation/robots/ur5_robotiq.py:103-111 | Joints 8, 12, 10 and 14 get `-cmd`; joints 9, 13, 11 and 15 get `+cmd`; no other joint is commanded |
| Ur5Robotiq.PlaceResetTargets | costar_task_plan/python/costar_task_plan/simulation/robots/ur5_robotiq.py:73-84 | Joint i is reset to `joints[i]`; joints 8, 10, 9, 11, 13 and 15 to 0; joints 12 and 14 are not reset |
| Ur5Robotiq.ResetsGiven | costar_task_plan/python/costar_task_plan/simulation/robots/ur5_robotiq.py:73-74 | The joint loop resets exactly joints `0 … n-1` |
| Ur5Robotiq.Ur5RobotiqInterface.constructor | costar_task_plan/python/costar_task_plan/simulation/robots/ur5_robotiq.py:29-30 | The command log starts empty |
| Ur5Robotiq.Ur5RobotiqInterface.Arm | costar_task_plan/python/costar_task_plan/simulation/robots/ur5_robotiq.py:89-96 | Raises exactly for more than 6 positions, logging nothing; otherwise appends the arm commands |
| Ur5Robotiq.Ur5RobotiqInterface.Gripper | costar_task_plan/python/costar_task_plan/simulation/robots/ur5_robotiq.py:98-111 | Appends the eight mirrored gripper commands |
| Ur5Robotiq.Ur5RobotiqInterface.Act | costar_task_plan/python/costar_task_plan/simulation/robots/ur5_robotiq.py:114-120 | Fails exactly when the action does not have 7 values; otherwise the first six go to `arm` and the seventh to `gripper` |
| Ur5Robotiq.Ur5RobotiqInterface.Place | costar_task_plan/python/costar_task_plan/simulation/robots/ur5_robotiq.py:70-87 | In order: base reset and fix, the joint resets, the gripper resets, `arm(joints)`, `gripper(0)` |
| Ur5Robotiq.ActTargets | costar_task_plan/python/costar_task_plan/simulation/robots/ur5_robotiq.py:114-120 | After `act`, arm joint i is commanded to `action[i]` and the gripper joints to ∓`action[6]` |
| SimFeatures.GetAvailableFeatures | costar_task_plan/python/costar_task_plan/simulation/features.py:5-6 | Exactly `['null', 'depth']` |
| SimFeatures.GetFeaturesAsWritten | costar_task_plan/python/costar_task_plan/simulation/features.py:8-18 | As written, the known names map to their classes and any other name raises `NameError` (the handler names the undefined `task`) |
| SimFeatures.Lookup | costar_task_plan/python/costar_task_plan/simulation/features.py:13-16 | Definition of the name-to-class dictionary; stated through `GetFeatures`, `GetFeaturesAsWritten` and `GetAvailableFeatures` |
| SimFeatures.GetFeatures | costar_task_plan/python/costar_task_plan/simulation/features.py:8-18 | Succeeds exactly for an available name: `null` gives the empty features and `depth` the depth features; any other name raises `NotImplementedError` naming it |
| SimFeatures.UnknownFeatureRaisesNameError | costar_task_plan/python/costar_task_plan/simulation/features.py:17-18 | On unknown names the version as written raises `NameError` while the corrected one raises `NotImplementedError`; on known names they agree |
| SimFeatures.Compute | costar_task_plan/python/costar_task_plan/simulation/features.py:20-33 | Empty features compute `[0]`; depth features compute the camera's depth capture |
| SimFeatures.UpdateBounds | costar_task_plan/python/costar_task_plan/simulation/features.py:24-36 | No effect for empty features; always raises for depth features |
| SimFeatures.GetBounds | costar_task_plan/python/costar_task_plan/simulation/features.py:27-39 | `([0], [0])` for empty features; always raises for depth features |
| SimFeatures.ComputeWithinBounds | costar_task_plan/python/costar_task_plan/simulation/features.py:20-28 | Where bounds exist, the computed features lie within them entry by entry |
| PyStrings.Lower | costar_models/python/costar_models/util.py:68 | `lower()` keeps the length and maps each character to its lower-case form |
| PyStrings.LowerIdempotent | costar_models/python/costar_models/util.py:68 | Lower-casing twice is lower-casing once |
| PyStrings.Contains | costar_hyper/costar_hypertree_inference.py:164 | Definition of `sub in s`; stated through `ContainsIff` |
| PyStrings.ContainsIff | costar_hyper/costar_hypertree_inference.py:164 | `sub in s` holds exactly when `sub` occurs at some position of `s` |
| PyStrings.RFind | costar_hyper/costar_hypertree_inference.py:155 | `rfind` gives the last position of the character, or -1 when there is none |
| PyStrings.RemoveAll | costar_hyper/costar_hypertree_inference.py:170 | `replace(x, '')` removes every non-overlapping occurrence from left to right; stated through `RemoveAllLength` and `RemoveAllAbsent` |
| PyStrings.RemoveAllLength | costar_hyper/costar_hypertree_inference.py:170 | `replace(x, '')` shortens the string by `|x|` per removed occurrence |
| PyStrings.RemoveAllAbsent | costar_hyper/costar_hypertree_inference.py:170 | `replace(x, '')` leaves a string without `x` unchanged |

## Left out

- ROS transport: service proxies, `wait_for_service`, logging and the `ServiceCaller` internals. A tick's service answers are an oracle parameter, and so are the replies of the move services.
- Randomness: the `np.random.randint` draws in `tick` and `_yield` are values the caller supplies, with their ranges as preconditions (one draw per tick in `Run`).
- StackMoves.RandomHome: the uniform draw of the last joint's change, in `[-3π/2, 3π/2)` at lines 118-119, is the parameter `delta` and is unconstrained; the contract holds for every value.
- Geometry: PyKDL frames, poses and joint values are opaque. The forward-kinematics answer is a parameter, and the gripper and servo-mode calls around the moves carry no result and are not modelled.
- `GetColors()` and the `ctp_integration` constants are not part of this model; the colour list is a parameter.
- StackShape: the shape theorems assume that no colour is a prefix of another. Without that, action names can collide (`NamesCollideWithoutPrefixFreedom`) and the graph merges actions.
- StackMoves.RetryUnbounded: the `GetUpdate` loops only end at a good reply, so the model needs the index of one as a ghost witness. The non-terminating case is not modelled.
- StackMoves.WaitForReply: the forward-kinematics loop `while fk_response is None` (stack.py:125-126) ends only at a present answer, so the model needs the index of one as a ghost witness; the same holds for StackMoves.RandomHome, which runs that loop. The non-terminating case, where forward kinematics never answers, is not modelled.
- StackMoves.Update: the `observe()` call between the two moves is not modelled.
- The printed training report and the learning-rate range checks of `__init__`, `os.path.expanduser`, and the Keras fit, compile, save and load methods are not modelled.
- AgentModel.AgentBasedModel.Yield: `_getData` is the subclass's; the model takes its features and targets as inputs, and arrays by their first axis only.
- AgentModel.ToOneHot2D: only 1-D and 2-D label arrays; the assertion on other ranks is not modelled.
- AgentModel.MergeFiles: `len(dataset.test)` and `dataset.sampleTest()` are inputs; the generators' endless `while True` is one pass here.
- Image scaling by `/255.` in `GetPolicyHuskyData` is not modelled; images are opaque values.
- Husky.GetPolicyHuskyData: the text of numpy's mask-length `IndexError` is a fixed string here.
- Keras and TensorFlow: model construction, `get_compiled_model`, `evaluate`, and the network classes themselves are opaque tags. `nchannels` in `MakeModel` is computed but never used and is not modelled.
- ModelFactory.Choose: `SuturingNumOptions()` is a parameter; its definition is not part of this model.
- ModelFactory.Choose: `RobotMultiGoalSampler` and `PretrainStateAutoencoder` come in by the star imports, whose modules are not part of this model; they are opaque tags like the others.
- ModelFactory.UnsupportedMessage: a plain function without a contract of its own. Its text is stated through `Choose`.
- PyStrings.Lower: only ASCII case mapping. Python's full Unicode `lower()` is not modelled.
- File I/O: h5py reading, CSV writing, `np.genfromtxt`, plotting and `keras.utils.get_file`. The file names and goal-index lists read from disk are inputs, and the fetched path and the `os.path.isfile` test are parameters of `GetFileFromUrl`.
- HyperTreeInference.EvaluateCounters: the module-level `filenames` it reads is the parameter `reference`, and `len(generator)` is the parameter `steps`. The scores are not modelled; only the `[file, frame]` prefix of each row is.
- The `__init__` of the hypertree class beyond its lists is not modelled. Its calls to `get_file_from_url` for non-existing files (lines 46-47 and 52-53) run the code as written, so they raise `NameError` as `GetFileFromUrlAsWritten` states; `GetFileFromUrl` is the corrected version.
- PyBullet: the robot handle and the URDF loading are not modelled. The `mode` argument is a parameter with position control as the default in `act` and `place`.
- SimFeatures.Compute: the world's camera is not modelled; the depth capture is a parameter.

## Findings

| source | as written | input that shows it | evidently intended | confidence | as-written member | corrected member |
|---|---|---|---|---|---|---|
| costar_hyper/costar_hypertree_inference.py:159 | `get_file_from_url` calls `extract_filename_from_url` without `self.`, and no module-level function has that name | any URL, e.g. `get_file_from_url("x/w.h5")` raises `NameError` | call `self.extract_filename_from_url(url)` | not executed | HyperTreeInference.GetFileFromUrlAsWritten | HyperTreeInference.GetFileFromUrl |
| costar_hyper/costar_hypertree_inference.py:144 | `frame_counter += 1 % frame_len` adds `1 % frame_len`, which is 0 for a one-frame file | one file of length 1 gives the row `[0, 0]` instead of `[0, 1]` | `frame_counter += 1`, frames numbered from 1 within each file | not executed | HyperTreeInference.OneFrameFileNumberedZero | HyperTreeInference.CorrectedCountersRows |
| costar_hyper/costar_hypertree_inference.py:138 | the loop compares with the module-level `filenames`, which the script sets to the path of the list file, a string | file list `["a.h5"]` of one frame, with `filenames` a path starting `C:`: the first frame compares `"a.h5"` with `"C"` and moves past the only file (IndexError) | compare with `self.filenames`, the list the frames were expanded from | not executed | HyperTreeInference.ScriptReferenceOverruns | HyperTreeInference.CorrectedCountersRows |
| costar_task_plan/python/costar_task_plan/simulation/features.py:18 | the handler formats its message with `task`, a name the module never defines | `GetFeatures("rgb")` raises `NameError` instead of `NotImplementedError` | format the requested name: `'Feature function rgb not implemented!'` | not executed | SimFeatures.UnknownFeatureRaisesNameError | SimFeatures.GetFeatures |
