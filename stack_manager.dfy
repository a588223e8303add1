/**
 * The task-graph executor of the pick-and-place pipeline (`StackManager`).
 *
 * A graph maps each action name to the (service, request) pair that performs
 * it and each parent key to the ordered list of its child actions; the parent
 * key `None` is the root marker.  Execution state is the last dispatched
 * action (`current`) and the flags `done` and `ok`.  `tick` is one poll of the
 * single outstanding remote call.
 *
 * The remote-call adapter (ServiceCaller) is an oracle: each tick is told
 * whether the outstanding call is still running, whether it completed ok and
 * whether starting the next call succeeds.  The random child choice is an
 * index supplied by the caller.
 */
module StackManagement {
  import opened Wrappers

  type Name = string

  /** A key of the children table: an action name, or `None` for the root. */
  type ParentKey = Option<Name>

  /** The `parents` argument of `addRequest`: a single key or a Python list of keys. */
  datatype Parents = One(key: ParentKey) | Many(keys: seq<ParentKey>)

  /** A non-list argument is wrapped as a one-element list. */
  function ParentList(p: Parents): (r: seq<ParentKey>)
    ensures p.One? ==> r == [p.key]
    ensures p.Many? ==> r == p.keys
  {
    match p
    case One(k) => [k]
    case Many(ks) => ks
  }

  datatype Graph<S, R> = Graph(reqs: map<Name, (S, R)>, children: map<ParentKey, seq<Name>>)
  {
    /**
     * Every child list is non-empty (a list is created only to receive a
     * name) and every child is a registered action.
     */
    ghost predicate WellFormed()
    {
      && (forall p :: p in children ==> |children[p]| > 0)
      && (forall p, i :: p in children && 0 <= i < |children[p]| ==> children[p][i] in reqs)
    }
  }

  function EmptyGraph<S, R>(): Graph<S, R>
  {
    Graph(map[], map[])
  }

  /** The child list of `p`, or the empty list when `p` has none. */
  function ChildrenOf(children: map<ParentKey, seq<Name>>, p: ParentKey): seq<Name>
  {
    if p in children then children[p] else []
  }

  /** `children[parent].append(name)`, creating the list when absent. */
  function AppendChild(children: map<ParentKey, seq<Name>>, parent: ParentKey, name: Name)
    : map<ParentKey, seq<Name>>
  {
    children[parent := ChildrenOf(children, parent) + [name]]
  }

  /** The loop of `addRequest` over the listed parents, in order. */
  function AppendUnder(children: map<ParentKey, seq<Name>>, parents: seq<ParentKey>, name: Name)
    : map<ParentKey, seq<Name>>
  {
    if parents == [] then children
    else AppendChild(AppendUnder(children, parents[..|parents| - 1], name), parents[|parents| - 1], name)
  }

  function Repeat<T>(x: T, n: nat): (r: seq<T>)
    ensures |r| == n
    ensures forall i :: 0 <= i < n ==> r[i] == x
  {
    if n == 0 then [] else Repeat(x, n - 1) + [x]
  }

  /** After the loop a key is present exactly when it was before or is listed. */
  lemma {:induction false} AppendUnderKeys(children: map<ParentKey, seq<Name>>, parents: seq<ParentKey>,
                                           name: Name, p: ParentKey)
    ensures p in AppendUnder(children, parents, name) <==> p in children || p in parents
  {
    if parents != [] {
      var init := parents[..|parents| - 1];
      AppendUnderKeys(children, init, name, p);
      assert parents == init + [parents[|parents| - 1]];
    }
  }

  /**
   * After the loop, a parent's list is its old list followed by `name` once
   * for every time the parent is listed, so parents that are not listed keep
   * their lists.
   */
  lemma {:induction false} AppendUnderLists(children: map<ParentKey, seq<Name>>, parents: seq<ParentKey>,
                                            name: Name, p: ParentKey)
    ensures ChildrenOf(AppendUnder(children, parents, name), p)
            == ChildrenOf(children, p) + Repeat(name, multiset(parents)[p])
  {
    if parents != [] {
      var init := parents[..|parents| - 1];
      var last := parents[|parents| - 1];
      var c := AppendUnder(children, init, name);
      var k := multiset(init)[p];
      AppendUnderLists(children, init, name, p);
      assert parents == init + [last];
      assert multiset(parents) == multiset(init) + multiset{last};
      if p == last {
        assert multiset(parents)[p] == k + 1;
        assert ChildrenOf(AppendUnder(children, parents, name), p) == ChildrenOf(c, p) + [name];
        assert Repeat(name, k + 1) == Repeat(name, k) + [name];
      } else {
        assert multiset(parents)[p] == k;
        assert ChildrenOf(AppendUnder(children, parents, name), p) == ChildrenOf(c, p);
      }
    }
  }

  lemma AppendUnderEffect(children: map<ParentKey, seq<Name>>, parents: seq<ParentKey>, name: Name, p: ParentKey)
    ensures var c := AppendUnder(children, parents, name);
      && (p in c <==> p in children || p in parents)
      && ChildrenOf(c, p) == ChildrenOf(children, p) + Repeat(name, multiset(parents)[p])
  {
    AppendUnderKeys(children, parents, name, p);
    AppendUnderLists(children, parents, name, p);
  }

  /** `addRequest(parents, name, srv, req)` on the graph. */
  function AddedRequest<S, R>(g: Graph<S, R>, parents: Parents, name: Name, srv: S, req: R): Graph<S, R>
  {
    Graph(g.reqs[name := (srv, req)], AppendUnder(g.children, ParentList(parents), name))
  }

  /**
   * `addRequest` stores the pair under `name` (replacing an earlier one), keeps
   * every other action's pair, and appends `name` to exactly the listed
   * parents' lists.
   */
  lemma AddRequestEffect<S, R>(g: Graph<S, R>, parents: Parents, name: Name, srv: S, req: R, p: ParentKey)
    ensures var g' := AddedRequest(g, parents, name, srv, req);
      && g'.reqs[name] == (srv, req)
      && g'.reqs.Keys == g.reqs.Keys + {name}
      && (forall n :: n in g.reqs && n != name ==> g'.reqs[n] == g.reqs[n])
      && (p in g'.children <==> p in g.children || p in ParentList(parents))
      && ChildrenOf(g'.children, p)
         == ChildrenOf(g.children, p) + Repeat(name, multiset(ParentList(parents))[p])
  {
    AppendUnderEffect(g.children, ParentList(parents), name, p);
  }

  /** Building a graph with `addRequest` keeps it well formed. */
  lemma AddRequestWellFormed<S, R>(g: Graph<S, R>, parents: Parents, name: Name, srv: S, req: R)
    requires g.WellFormed()
    ensures AddedRequest(g, parents, name, srv, req).WellFormed()
  {
    var g' := AddedRequest(g, parents, name, srv, req);
    forall p | p in g'.children
      ensures |g'.children[p]| > 0
      ensures forall i :: 0 <= i < |g'.children[p]| ==> g'.children[p][i] in g'.reqs
    {
      AppendUnderEffect(g.children, ParentList(parents), name, p);
      var k := multiset(ParentList(parents))[p];
      assert g'.children[p] == ChildrenOf(g.children, p) + Repeat(name, k);
      assert p !in g.children ==> p in ParentList(parents) && k > 0;
    }
  }

  /** A child of some parent stays a child of it after more requests are added. */
  lemma AddRequestKeepsChildren<S, R>(g: Graph<S, R>, parents: Parents, name: Name, srv: S, req: R,
                                      p: ParentKey, n: Name)
    requires n in ChildrenOf(g.children, p)
    ensures n in ChildrenOf(AddedRequest(g, parents, name, srv, req).children, p)
  {
    AppendUnderEffect(g.children, ParentList(parents), name, p);
  }

  /** `current`, `done` and `ok` of a `StackManager`. */
  datatype ExecState = ExecState(current: Option<Name>, done: bool, ok: bool)

  /** `reset()`: not started, not done, ok. The graph is not touched. */
  function InitialState(): (st: ExecState)
    ensures st.current == None && !st.done && st.ok
  {
    ExecState(None, false, true)
  }

  /**
   * What the ServiceCaller reports during one tick: `update()` (the
   * outstanding call is still running), `ok` (the completed call succeeded)
   * and the value of `service(srv, req)` (the next call could be started).
   */
  datatype Poll = Poll(running: bool, callOk: bool, startOk: bool)

  /**
   * The value of `tick()`: `StillRunning` is Python's implicit `None`,
   * `Returned(b)` a boolean return, and `StartFailed(a)` the RuntimeError
   * raised when the call for action `a` could not be started.
   */
  datatype TickResult = StillRunning | Returned(value: bool) | StartFailed(action: Name)

  /** The state after a tick, its value, and the action whose request was sent to the service. */
  datatype TickOutcome = TickOutcome(state: ExecState, result: TickResult, started: Option<Name>)

  /** The caller's index is a valid position in the current action's child list. */
  predicate ChoiceInRange<S, R>(g: Graph<S, R>, st: ExecState, choice: nat)
  {
    st.current in g.children ==> choice < |g.children[st.current]|
  }

  /** One `tick()`. */
  function Step<S, R>(g: Graph<S, R>, st: ExecState, poll: Poll, choice: nat): TickOutcome
    requires ChoiceInRange(g, st, choice)
  {
    if !st.ok || st.done then
      TickOutcome(st.(done := true), Returned(st.ok), None)
    else if poll.running then
      TickOutcome(st, StillRunning, None)
    else if !poll.callOk then
      TickOutcome(ExecState(st.current, true, false), Returned(true), None)
    else if st.current !in g.children then
      TickOutcome(ExecState(st.current, true, true), Returned(true), None)
    else
      var next := g.children[st.current][choice];
      if poll.startOk then TickOutcome(ExecState(Some(next), false, true), Returned(false), Some(next))
      else TickOutcome(ExecState(st.current, false, true), StartFailed(next), Some(next))
  }

  /** When `ok` is false, `tick` marks the run done and returns false, without polling. */
  lemma TickAfterFailure<S, R>(g: Graph<S, R>, st: ExecState, poll: Poll, choice: nat)
    requires ChoiceInRange(g, st, choice)
    requires !st.ok
    ensures Step(g, st, poll, choice) == TickOutcome(ExecState(st.current, true, false), Returned(false), None)
  {
  }

  /**
   * Once `done` holds, `tick` returns `ok` and changes nothing, whatever the
   * service reports, so ticking again gives the same step.
   */
  lemma TickWhenDone<S, R>(g: Graph<S, R>, st: ExecState, poll: Poll, choice: nat, poll': Poll, choice': nat)
    requires ChoiceInRange(g, st, choice) && ChoiceInRange(g, st, choice')
    requires st.done
    ensures Step(g, st, poll, choice) == TickOutcome(st, Returned(st.ok), None)
    ensures Step(g, Step(g, st, poll, choice).state, poll', choice') == Step(g, st, poll, choice)
  {
  }

  /** While the outstanding call is still running, nothing changes and no value is returned. */
  lemma TickWhileRunning<S, R>(g: Graph<S, R>, st: ExecState, poll: Poll, choice: nat)
    requires ChoiceInRange(g, st, choice)
    requires st.ok && !st.done && poll.running
    ensures Step(g, st, poll, choice) == TickOutcome(st, StillRunning, None)
  {
  }

  /**
   * A completed call that reports failure ends the run, failed, without
   * dispatching. That tick returns `done`, which is true, as a successful end does.
   */
  lemma TickOnCallFailure<S, R>(g: Graph<S, R>, st: ExecState, poll: Poll, choice: nat)
    requires ChoiceInRange(g, st, choice)
    requires st.ok && !st.done && !poll.running && !poll.callOk
    ensures var s := Step(g, st, poll, choice);
      s.state.done && !s.state.ok && s.state.current == st.current && s.started == None
      && s.result == Returned(true)
  {
  }

  /**
   * A call that completed ok: with children, one child is dispatched (its
   * request is the one started, and a failed start raises leaving `current`
   * in place); without children, the run ends successfully.
   */
  lemma TickOnCallSuccess<S, R>(g: Graph<S, R>, st: ExecState, poll: Poll, choice: nat)
    requires ChoiceInRange(g, st, choice)
    requires st.ok && !st.done && !poll.running && poll.callOk
    ensures var s := Step(g, st, poll, choice);
      && s.state.ok
      && (st.current in g.children ==>
            && s.started == Some(g.children[st.current][choice])
            && s.started.value in g.children[st.current]
            && !s.state.done
            && (poll.startOk ==> s.state.current == s.started && s.result == Returned(false))
            && (!poll.startOk ==> s.state.current == st.current && s.result == StartFailed(s.started.value)))
      && (st.current !in g.children ==>
            s.state.done && s.result == Returned(true) && s.started == None)
  {
  }

  /** The dispatched action is always a registered action of the graph. */
  lemma TickStartsRegistered<S, R>(g: Graph<S, R>, st: ExecState, poll: Poll, choice: nat)
    requires g.WellFormed() && ChoiceInRange(g, st, choice)
    ensures var s := Step(g, st, poll, choice);
      s.started.Some? ==> s.started.value in g.reqs && s.started.value in g.children[st.current]
  {
  }

  /**
   * `path` is a walk through the graph from the root: its first action is a
   * root child and each later action is a child of the one before it.
   */
  ghost predicate IsPath<S, R>(g: Graph<S, R>, path: seq<Name>)
  {
    && (|path| > 0 ==> path[0] in ChildrenOf(g.children, None))
    && (forall i :: 0 < i < |path| ==> path[i] in ChildrenOf(g.children, Some(path[i - 1])))
  }

  function Last(path: seq<Name>): Option<Name>
  {
    if path == [] then None else Some(path[|path| - 1])
  }

  /**
   * Ticking extends the walk that led to `current` by the dispatched action,
   * so the dispatched action is a child of the previous current action.
   */
  lemma TickExtendsPath<S, R>(g: Graph<S, R>, st: ExecState, poll: Poll, choice: nat, path: seq<Name>)
    requires ChoiceInRange(g, st, choice)
    requires IsPath(g, path) && st.current == Last(path)
    ensures var s := Step(g, st, poll, choice);
      var path' := if s.state.current == st.current then path else path + [s.started.value];
      IsPath(g, path') && s.state.current == Last(path')
  {
    var s := Step(g, st, poll, choice);
    if s.state.current != st.current {
      var next := s.started.value;
      assert next in g.children[st.current];
      assert (path + [next])[|path|] == next;
    }
  }

  /**
   * The walk is still a walk after further actions are added to the graph:
   * `addRequest` only appends to child lists.
   */
  lemma {:induction false} PathSurvivesAddRequest<S, R>(g: Graph<S, R>, path: seq<Name>, parents: Parents,
                                                       name: Name, srv: S, req: R)
    requires IsPath(g, path)
    ensures IsPath(AddedRequest(g, parents, name, srv, req), path)
  {
    var g' := AddedRequest(g, parents, name, srv, req);
    if |path| > 0 {
      AddRequestKeepsChildren(g, parents, name, srv, req, None, path[0]);
    }
    forall i | 0 < i < |path|
      ensures path[i] in ChildrenOf(g'.children, Some(path[i - 1]))
    {
      AddRequestKeepsChildren(g, parents, name, srv, req, Some(path[i - 1]), path[i]);
    }
  }

  /**
   * The random draws of a polling loop, one per tick: `draws[k](n)` is what
   * `np.random.randint(n)` returns on tick `k`, a value in `[0, n)`.
   */
  ghost predicate ValidDraws(draws: seq<nat -> nat>)
  {
    forall k, n: nat :: 0 <= k < |draws| && n > 0 ==> draws[k](n) < n
  }

  /** The child index tick `k` uses: its draw over the current action's child list. */
  function Pick<S, R>(g: Graph<S, R>, st: ExecState, draw: nat -> nat): nat
  {
    if st.current in g.children then draw(|g.children[st.current]|) else 0
  }

  /**
   * A polling loop: tick once per poll, with that tick's own draw, stopping
   * early if a tick raises. Returns the final state and whether the run was
   * halted by a raise.
   */
  function Run<S, R>(g: Graph<S, R>, st: ExecState, polls: seq<Poll>, draws: seq<nat -> nat>)
    : (ExecState, bool)
    requires g.WellFormed() && |draws| == |polls| && ValidDraws(draws)
    decreases |polls|
  {
    if polls == [] then (st, false)
    else
      var s := Step(g, st, polls[0], Pick(g, st, draws[0]));
      if s.result.StartFailed? then (s.state, true)
      else Run(g, s.state, polls[1..], draws[1..])
  }

  /** A finished run stays finished and unchanged, whatever is polled or drawn afterwards. */
  lemma {:induction false} RunWhenDone<S, R>(g: Graph<S, R>, st: ExecState, polls: seq<Poll>,
                                             draws: seq<nat -> nat>)
    requires g.WellFormed() && |draws| == |polls| && ValidDraws(draws)
    requires st.done
    ensures Run(g, st, polls, draws) == (st, false)
    decreases |polls|
  {
    if polls != [] {
      assert Step(g, st, polls[0], Pick(g, st, draws[0])).state == st;
      RunWhenDone(g, st, polls[1..], draws[1..]);
    }
  }

  /** Failure stops all progress: after `ok` turns false no action is ever dispatched again. */
  lemma {:induction false} RunAfterFailure<S, R>(g: Graph<S, R>, st: ExecState, polls: seq<Poll>,
                                                 draws: seq<nat -> nat>)
    requires g.WellFormed() && |draws| == |polls| && ValidDraws(draws)
    requires !st.ok
    ensures var (st', halted) := Run(g, st, polls, draws);
      !halted && !st'.ok && st'.current == st.current && (polls != [] ==> st'.done)
    decreases |polls|
  {
    if polls != [] {
      var st1 := Step(g, st, polls[0], Pick(g, st, draws[0])).state;
      assert st1 == ExecState(st.current, true, false);
      RunWhenDone(g, st1, polls[1..], draws[1..]);
    }
  }

  /** Every action a polling loop reaches lies on a walk of the graph from the root. */
  lemma {:induction false} RunFollowsGraph<S, R>(g: Graph<S, R>, st: ExecState, polls: seq<Poll>,
                                                 draws: seq<nat -> nat>, path: seq<Name>)
    requires g.WellFormed() && |draws| == |polls| && ValidDraws(draws)
    requires IsPath(g, path) && st.current == Last(path)
    ensures exists path' :: IsPath(g, path') && Run(g, st, polls, draws).0.current == Last(path')
    decreases |polls|
  {
    if polls == [] {
      assert Run(g, st, polls, draws).0 == st;
    } else {
      var choice := Pick(g, st, draws[0]);
      var s := Step(g, st, polls[0], choice);
      TickExtendsPath(g, st, polls[0], choice, path);
      var path1 := if s.state.current == st.current then path else path + [s.started.value];
      if s.result.StartFailed? {
        assert Run(g, st, polls, draws).0 == s.state;
      } else {
        RunFollowsGraph(g, s.state, polls[1..], draws[1..], path1);
      }
    }
  }

  /**
   * The object that holds the graph and the execution state and that
   * `reset`, `addRequest` and `tick` update in place.  The ghost `visited`
   * is the walk of actions dispatched since the last reset.
   */
  class StackManager<S, R> {
    var reqs: map<Name, (S, R)>
    var children: map<ParentKey, seq<Name>>
    var current: Option<Name>
    var done: bool
    var ok: bool
    ghost var visited: seq<Name>

    function TaskGraph(): Graph<S, R>
      reads this
    {
      Graph(reqs, children)
    }

    function State(): ExecState
      reads this
    {
      ExecState(current, done, ok)
    }

    ghost predicate Valid()
      reads this
    {
      TaskGraph().WellFormed() && IsPath(TaskGraph(), visited) && current == Last(visited)
    }

    /** `__init__`: reset state and an empty graph. */
    constructor ()
      ensures Valid()
      ensures reqs == map[] && children == map[]
      ensures State() == InitialState() && visited == []
    {
      reqs := map[];
      children := map[];
      current := None;
      done := false;
      ok := true;
      visited := [];
    }

    method Reset()
      requires Valid()
      modifies this
      ensures Valid()
      ensures State() == InitialState() && visited == []
      ensures reqs == old(reqs) && children == old(children)
    {
      done := false;
      current := None;
      ok := true;
      visited := [];
    }

    method AddRequest(parents: Parents, name: Name, srv: S, req: R)
      requires Valid()
      modifies this
      ensures Valid()
      ensures TaskGraph() == AddedRequest(old(TaskGraph()), parents, name, srv, req)
      ensures State() == old(State()) && visited == old(visited)
    {
      ghost var g0 := TaskGraph();
      reqs := reqs[name := (srv, req)];
      var ps := ParentList(parents);
      var kids := children;
      var i := 0;
      while i < |ps|
        invariant 0 <= i <= |ps|
        invariant kids == AppendUnder(g0.children, ps[..i], name)
      {
        var parent := ps[i];
        if parent !in kids {
          kids := kids[parent := []];
        }
        kids := kids[parent := kids[parent] + [name]];
        assert ps[..i + 1][..i] == ps[..i];
        i := i + 1;
      }
      assert ps[..i] == ps;
      children := kids;
      AddRequestWellFormed(g0, parents, name, srv, req);
      PathSurvivesAddRequest(g0, visited, parents, name, srv, req);
    }

    /**
     * `tick()`: the service's answers are `poll`, and `choice` is the random
     * index into the current action's children.  `started` is the request
     * passed to the service, when one is.
     */
    method Tick(poll: Poll, choice: nat) returns (result: TickResult, started: Option<(S, R)>)
      requires Valid() && ChoiceInRange(TaskGraph(), State(), choice)
      modifies this
      ensures Valid()
      ensures reqs == old(reqs) && children == old(children)
      ensures var s := Step(old(TaskGraph()), old(State()), poll, choice);
        && State() == s.state && result == s.result
        && started == (if s.started.Some? then Some(reqs[s.started.value]) else None)
    {
      started := None;
      if !ok {
        done := true;
      }
      if done {
        return Returned(ok), None;
      } else if poll.running {
        done := false;
        return StillRunning, None;
      } else if current in children {
        done := false;
      } else {
        done := true;
      }

      if poll.callOk {
        ok := true;
      } else {
        ok := false;
        done := true;
      }

      if !done {
        var kids := children[current];
        var next := kids[choice];
        started := Some(reqs[next]);
        if !poll.startOk {
          return StartFailed(next), started;
        }
        current := Some(next);
        visited := visited + [next];
        assert visited[|visited| - 1] == next;
      }
      return Returned(done), started;
    }
  }
}
