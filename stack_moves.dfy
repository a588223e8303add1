// The move closures of the stacking pipeline: each wraps one or two remote
// motion services in a loop that repeats the call while its reply is missing
// or acknowledges a failure.
//
// A service is an oracle `respond`: `respond(k)` is the reply to its k-th call
// (counting from 0), `None` when the service returned nothing, otherwise the
// reply's `ack` text. The logging, servo-mode and gripper calls around the
// moves carry no result and are not modelled.

module StackMoves {
  import opened Wrappers
  import opened PyStrings

  /** Reply to one service call: the `ack` text, or `None` when there was no reply. */
  type Reply = Option<string>

  /** A reply the closures treat as failed: missing, or its lower-cased ack mentions "failure". */
  predicate Failing(res: Reply)
  {
    res.None? || Contains(Lower(res.value), "failure")
  }

  /** Whether a reply fails does not depend on the case of its ack. */
  lemma FailingIgnoresCase(ack: string)
    ensures Failing(Some(ack)) <==> Failing(Some(Lower(ack)))
  {
    LowerIdempotent(ack);
  }

  /** `max_tries` of every bounded retry loop. */
  const MaxTries: nat := 10

  /**
   * How a move closure ends in error. A missing reply fails at the logging
   * line that reads `res.ack` (an attribute error on `None`) before the
   * intended `RuntimeError` can be raised; a failing ack raises `RuntimeError`
   * with the message given.
   */
  datatype MoveError = NoReplyAttribute | Runtime(msg: string)

  /** The messages of the `RuntimeError`s the closures raise. */
  const HomeMessage: string := "HOME(): error moving to home1"
  const RandomHomeMessage: string := "GetRandomHome::random_home(): error moving to home: "
  const HomeViaPoseMessage: string := "HOME(): error moving to home1: "
  const OverWorkspaceMessage: string := "HOME(): error moving to pose over workspace"
  const NoPoseMessage: string := "GetMoveToPose::move() pose parameter was invalid: None"
  const MoveToPoseMessage: string := "GetMoveToPose::move(): error moving to pose "
  const NoJointsMessage: string := "GetUpdate::update(): collector had joint position stored at None"
  const ReturnMessage: string := "GetUpdate::UPDATE(): error returning to original joint pose"

  /**
   * The check after a loop: no error when the reply is good; the attribute
   * error on a missing reply; otherwise `RuntimeError(prefix)`, followed by
   * the ack when `withAck`.
   */
  function Verdict(res: Reply, prefix: string, withAck: bool): (r: Option<MoveError>)
    ensures r.None? <==> !Failing(res)
    ensures res.None? ==> r == Some(NoReplyAttribute)
    ensures r.Some? && res.Some? ==> r.value.Runtime? && StartsWith(r.value.msg, prefix)
  {
    if res.None? then Some(NoReplyAttribute)
    else if Contains(Lower(res.value), "failure") then
      Some(Runtime(if withAck then prefix + res.value else prefix))
    else None
  }

  /**
   * The bounded retry loop: call the service (calls numbered from `start`)
   * while fewer than `MaxTries` calls were made and the last reply failed.
   * It makes between one and ten calls, stops at the first good reply, and
   * ends with a failing reply only after ten failing ones.
   */
  method Retry(respond: nat -> Reply, start: nat) returns (res: Reply, tries: nat)
    ensures 1 <= tries <= MaxTries
    ensures res == respond(start + tries - 1)
    ensures forall k :: start <= k < start + tries - 1 ==> Failing(respond(k))
    ensures Failing(res) ==> tries == MaxTries
    ensures !Failing(res) <==> exists k :: start <= k < start + MaxTries && !Failing(respond(k))
  {
    tries := 0;
    res := None;
    while tries < MaxTries && Failing(res)
      invariant 0 <= tries <= MaxTries
      invariant tries == 0 ==> res == None
      invariant tries > 0 ==> res == respond(start + tries - 1)
      invariant forall k :: start <= k < start + tries - 1 ==> Failing(respond(k))
      decreases MaxTries - tries
    {
      res := respond(start + tries);
      tries := tries + 1;
    }
    if Failing(res) {
      forall k | start <= k < start + MaxTries
        ensures Failing(respond(k))
      {
        if k < start + tries - 1 {
        } else {
          assert k == start + tries - 1;
        }
      }
    }
  }

  /** The index of the first good reply at or after call `k`; `goodCall` is one. */
  function FirstGood(respond: nat -> Reply, k: nat, goodCall: nat): (n: nat)
    requires k <= goodCall && !Failing(respond(goodCall))
    ensures k <= n <= goodCall && !Failing(respond(n))
    ensures forall j :: k <= j < n ==> Failing(respond(j))
    decreases goodCall - k
  {
    if !Failing(respond(k)) then k else FirstGood(respond, k + 1, goodCall)
  }

  /**
   * The loops of `GetUpdate`: written like `Retry`, but `tries` is never
   * incremented, so the bound never stops them and they run until a good
   * reply. `goodCall` is a call index with a good reply; without one the
   * loop would not end.
   */
  method RetryUnbounded(respond: nat -> Reply, start: nat, ghost goodCall: nat) returns (res: Reply, calls: nat)
    requires start <= goodCall && !Failing(respond(goodCall))
    ensures 1 <= calls && start + calls - 1 == FirstGood(respond, start, goodCall)
    ensures res == respond(start + calls - 1) && !Failing(res)
  {
    var tries := 0;
    calls := 0;
    res := None;
    while tries < MaxTries && Failing(res)
      invariant tries == 0
      invariant start + calls <= goodCall + 1
      invariant calls == 0 ==> res == None
      invariant calls > 0 ==> res == respond(start + calls - 1)
      invariant forall k :: start <= k < start + calls - 1 ==> Failing(respond(k))
      invariant calls > 0 ==> start + calls - 1 <= FirstGood(respond, start, goodCall)
      decreases goodCall + 1 - (start + calls)
    {
      res := respond(start + calls);
      calls := calls + 1;
    }
  }

  /** `while fk_response is None: fk_response = forward_kinematics(fk_req)`. */
  method WaitForReply<T>(respond: nat -> Option<T>, ghost goodCall: nat) returns (value: T, calls: nat)
    requires respond(goodCall).Some?
    ensures 1 <= calls <= goodCall + 1
    ensures respond(calls - 1) == Some(value)
    ensures forall k :: 0 <= k < calls - 1 ==> respond(k).None?
  {
    var reply: Option<T> := None;
    calls := 0;
    while reply.None?
      invariant calls <= goodCall + 1
      invariant calls == 0 ==> reply.None?
      invariant calls > 0 ==> reply == respond(calls - 1)
      invariant forall k :: 0 <= k < calls - 1 ==> respond(k).None?
      decreases goodCall + 1 - calls
    {
      reply := respond(calls);
      calls := calls + 1;
    }
    value := reply.value;
  }

  /** The closure of `GetHome`: one call to the joint-space planner, no retry. */
  function Home(res: Reply): (r: Result<(), MoveError>)
    ensures r.Success? <==> !Failing(res)
    ensures res.None? ==> r == Failure(NoReplyAttribute)
    ensures res.Some? && Failing(res) ==> r == Failure(Runtime(HomeMessage))
  {
    match Verdict(res, HomeMessage, false)
    case None => Success(())
    case Some(e) => Failure(e)
  }

  /** The joint configuration `random_home` starts from. */
  const RandomHomeJoints: seq<real> := [-0.202, -0.980, -1.800, -0.278, 1.460, 1.613]

  /**
   * The closure of `GetRandomHome`. `delta` is the uniformly drawn change of
   * the last joint; `fk` answers the forward-kinematics calls (repeated until
   * one answers, `fkWitness` being such a call), and `goToJs` the bounded
   * retry of the move. On success it returns the home configuration with
   * the last joint moved by `delta`, and the pose of the first
   * forward-kinematics answer.
   */
  method RandomHome<P>(delta: real, fk: nat -> Option<P>, ghost fkWitness: nat, goToJs: nat -> Reply)
    returns (r: Result<(seq<real>, P), MoveError>)
    requires fk(fkWitness).Some?
    ensures r.Success? <==> exists k :: 0 <= k < MaxTries && !Failing(goToJs(k))
    ensures r.Success? ==>
              && |r.value.0| == 6
              && r.value.0[..5] == RandomHomeJoints[..5]
              && r.value.0[5] == RandomHomeJoints[5] + delta
              && exists k :: 0 <= k <= fkWitness && fk(k) == Some(r.value.1)
                             && forall j :: 0 <= j < k ==> fk(j).None?
  {
    var q := RandomHomeJoints[5 := RandomHomeJoints[5] + delta];
    var pose, fkCalls := WaitForReply(fk, fkWitness);
    var res1, tries := Retry(goToJs, 0);
    match Verdict(res1, RandomHomeMessage, true)
    case Some(e) =>
      return Failure(e);
    case None =>
      assert q[..5] == RandomHomeJoints[..5];
      return Success((q, pose));
  }

  /**
   * The closure of `GetHomeFunctorViaPose`: a bounded retry of the home
   * call, then, if that ended well, a bounded retry of the move over the
   * workspace.
   */
  method HomeViaPose(jsHome: nat -> Reply, move: nat -> Reply) returns (r: Result<(), MoveError>)
    ensures r.Success? <==> ((exists k :: 0 <= k < MaxTries && !Failing(jsHome(k)))
                             && (exists k :: 0 <= k < MaxTries && !Failing(move(k))))
    ensures (forall k :: 0 <= k < MaxTries ==> Failing(jsHome(k))) ==>
              r == Failure(Verdict(jsHome(MaxTries - 1), HomeViaPoseMessage, true).value)
  {
    var res1, tries1 := Retry(jsHome, 0);
    var v1 := Verdict(res1, HomeViaPoseMessage, true);
    if v1.Some? {
      return Failure(v1.value);
    }
    var res2, tries2 := Retry(move, 0);
    var v2 := Verdict(res2, OverWorkspaceMessage, true);
    if v2.Some? {
      return Failure(v2.value);
    }
    return Success(());
  }

  /**
   * The closure of `GetMoveToPose`: a missing pose raises at once without
   * calling the service; otherwise a bounded retry of the move.
   */
  method MoveToPose<P>(pose: Option<P>, move: nat -> Reply) returns (r: Result<(), MoveError>, calls: nat)
    ensures pose.None? ==> r == Failure(Runtime(NoPoseMessage)) && calls == 0
    ensures pose.Some? ==> 1 <= calls <= MaxTries
    ensures pose.Some? ==> (r.Success? <==> exists k :: 0 <= k < MaxTries && !Failing(move(k)))
  {
    if pose.None? {
      return Failure(Runtime(NoPoseMessage)), 0;
    }
    var res;
    res, calls := Retry(move, 0);
    match Verdict(res, MoveToPoseMessage, true)
    case Some(e) => r := Failure(e);
    case None => r := Success(());
  }

  /** The check that ends the closure of `GetUpdate`, which returns `True` on success. */
  function ReturnCheck(res2: Reply): (r: Result<bool, MoveError>)
    ensures r.Success? <==> !Failing(res2)
    ensures r.Success? ==> r.value
    ensures res2.None? ==> r == Failure(NoReplyAttribute)
  {
    match Verdict(res2, ReturnMessage, false)
    case Some(e) => Failure(e)
    case None => Success(true)
  }

  /**
   * The closure of `GetUpdate`. It moves home (repeating until a good reply,
   * `homeWitness` being the index of one), then either returns to the saved
   * configuration `q0` (again repeating until a good reply, `backWitness`
   * being one; only this path needs it),
   * raises when no configuration was saved, or makes one extra home call
   * when `returnToOriginal` is off. All calls go to the same joint-space
   * service, numbered consecutively.
   */
  method Update<Q>(goToJs: nat -> Reply, q0: Option<Q>, returnToOriginal: bool,
                   ghost homeWitness: nat, ghost backWitness: nat)
    returns (r: Result<bool, MoveError>)
    requires !Failing(goToJs(homeWitness))
    requires returnToOriginal && q0.Some? ==> homeWitness < backWitness && !Failing(goToJs(backWitness))
    ensures returnToOriginal && q0.None? ==>
              r == Failure(Runtime(NoJointsMessage))
    ensures returnToOriginal && q0.Some? ==> r == Success(true)
    ensures !returnToOriginal ==>
              (r.Success? <==> !Failing(goToJs(FirstGood(goToJs, 0, homeWitness) + 1)))
    ensures r.Success? ==> r.value
  {
    var res, calls := RetryUnbounded(goToJs, 0, homeWitness);
    if !returnToOriginal {
      return ReturnCheck(goToJs(calls));
    }
    if q0.None? {
      return Failure(Runtime(NoJointsMessage));
    }
    var res2, calls2 := RetryUnbounded(goToJs, calls, backWitness);
    r := ReturnCheck(res2);
  }
}
