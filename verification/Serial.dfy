/**
 * The coarse view: every service call, and every worker iteration with its error handling, as one
 * operation. Serial histories are calm runs of the fine-grained pipeline, so its guarantees hold
 * for them, Cancel and Ship included.
 */
module Serial {
  import opened Basics
  import opened OrderModel
  import opened Pipeline
  import opened Guarantees
  import opened Iteration

  datatype Operation =
    | Create(order: Order, items: seq<Item>, commit: Outcome, publish: Outcome)
    | Iterate(w: nat, fates: Fates, retry: Outcome)
    | Transition(id: Uuid, to: Status, now: int, outcome: Outcome)

  predicate Possible(s: State, op: Operation) {
    match op
    case Create(order, items, _, _) => Enabled(s, Commit(order, items, Done))
    case Iterate(w, _, _) => w < |s.workers| && s.workers[w].Waiting? && s.queue != []
    case Transition(id, to, _, _) => Enabled(s, Check(id, to))
  }

  /** What one operation leaves behind. */
  function Performed(c: Config, s: State, op: Operation): State
    requires Possible(s, op)
  {
    match op
    case Create(order, items, commit, publish) =>
      var stored := CommitStep(s, order, items, commit);
      if commit == Done then PublishStep(stored, order.id, publish) else stored
    case Iterate(w, fates, retry) => Iterated(c, s, w, fates, retry)
    case Transition(id, to, now, outcome) =>
      WriteStep(s.(requests := s.requests + multiset{Request(id, to)}), id, to, now, outcome)
  }

  /** The steps of one operation. */
  function Steps(c: Config, s: State, op: Operation): seq<Step>
    requires Possible(s, op)
  {
    match op
    case Create(order, items, commit, publish) =>
      if commit == Done then [Commit(order, items, commit), Publish(order.id, publish)]
      else [Commit(order, items, commit)]
    case Iterate(w, fates, retry) => IterationSteps(c, s, w, fates, retry)
    case Transition(id, to, now, outcome) => [Check(id, to), Write(id, to, now, outcome)]
  }

  lemma CreateIsCalm(c: Config, s: State, order: Order, items: seq<Item>, commit: Outcome, publish: Outcome)
    requires AtRest(s) && Possible(s, Create(order, items, commit, publish))
    ensures var ts := Steps(c, s, Create(order, items, commit, publish));
      Run(CALM, c, s, ts) && End(CALM, c, s, ts) == Performed(c, s, Create(order, items, commit, publish))
    ensures Performed(c, s, Create(order, items, commit, publish)).workers == s.workers
  {
    var t, u := Commit(order, items, commit), Publish(order.id, publish);
    if commit == Done {
      var s1, s2 := TwoSteps(CALM, c, s, t, u);
    } else {
      OneStep(CALM, c, s, t);
    }
  }

  lemma TransitionIsCalm(c: Config, s: State, id: Uuid, to: Status, now: int, outcome: Outcome)
    requires AtRest(s) && Possible(s, Transition(id, to, now, outcome))
    ensures var ts := Steps(c, s, Transition(id, to, now, outcome));
      Run(CALM, c, s, ts) && End(CALM, c, s, ts) == Performed(c, s, Transition(id, to, now, outcome))
    ensures Performed(c, s, Transition(id, to, now, outcome)).workers == s.workers
  {
    var s1, s2 := TwoSteps(CALM, c, s, Check(id, to), Write(id, to, now, outcome));
  }

  lemma {:induction false} WorkerRunKeepsOthers(c: Config, s: State, w: nat, ts: seq<Step>)
    requires Run(CALM, c, s, ts) && w < |s.workers|
    requires forall k :: 0 <= k < |ts| ==> ts[k].ByWorker() && ts[k].w == w
    ensures var s' := End(CALM, c, s, ts);
      |s'.workers| == |s.workers| && forall v :: 0 <= v < |s.workers| && v != w ==> s'.workers[v] == s.workers[v]
    decreases |ts|
  {
    if |ts| == 0 {
    } else {
      WorkerBalances(c, s, ts[0]);
      WorkerRunKeepsOthers(c, Apply(c, s, ts[0]), w, ts[1..]);
    }
  }

  lemma {:induction false} ProcessStepsAreOwn(c: Config, s: State, w: nat, f: Fates)
    ensures forall k :: 0 <= k < |ProcessSteps(c, s, w, f)| ==>
      ProcessSteps(c, s, w, f)[k].ByWorker() && ProcessSteps(c, s, w, f)[k].w == w
    decreases StageOf(s, w)
  {
    if InProcess(s, w) {
      StageFalls(c, s, w, f);
      ProcessStepsAreOwn(c, Apply(c, s, FatedStep(s, w, f)), w, f);
    }
  }

  lemma IterationStepsAreOwn(c: Config, s: State, w: nat, f: Fates, retry: Outcome)
    requires w < |s.workers| && s.workers[w].Waiting? && s.queue != []
    ensures forall k :: 0 <= k < |IterationSteps(c, s, w, f, retry)| ==>
      IterationSteps(c, s, w, f, retry)[k].ByWorker() && IterationSteps(c, s, w, f, retry)[k].w == w
  {
    ProcessStepsAreOwn(c, TakeStep(s, w), w, f);
  }

  lemma IterateIsCalm(c: Config, s: State, w: nat, f: Fates, retry: Outcome)
    requires AtRest(s) && Possible(s, Iterate(w, f, retry))
    ensures var ts := Steps(c, s, Iterate(w, f, retry));
      Run(CALM, c, s, ts) && End(CALM, c, s, ts) == Performed(c, s, Iterate(w, f, retry))
    ensures AtRest(Performed(c, s, Iterate(w, f, retry)))
  {
    IterationIsRun(CALM, c, s, w, f, retry);
    IterationIsAtomic(c, s, w, f, retry);
    IterationStepsAreOwn(c, s, w, f, retry);
    WorkerRunKeepsOthers(c, s, w, IterationSteps(c, s, w, f, retry));
  }

  lemma OperationIsCalm(c: Config, s: State, op: Operation)
    requires AtRest(s) && Possible(s, op)
    ensures Run(CALM, c, s, Steps(c, s, op)) && End(CALM, c, s, Steps(c, s, op)) == Performed(c, s, op)
    ensures AtRest(Performed(c, s, op))
  {
    match op
    case Create(order, items, commit, publish) => CreateIsCalm(c, s, order, items, commit, publish);
    case Iterate(w, fates, retry) => IterateIsCalm(c, s, w, fates, retry);
    case Transition(id, to, now, outcome) => TransitionIsCalm(c, s, id, to, now, outcome);
  }

  /** A serial history: the operations one after the other, each possible when its turn comes. */
  predicate History(c: Config, s: State, ops: seq<Operation>)
    decreases |ops|
  {
    |ops| == 0 || (Possible(s, ops[0]) && History(c, Performed(c, s, ops[0]), ops[1..]))
  }

  function After(c: Config, s: State, ops: seq<Operation>): State
    requires History(c, s, ops)
    decreases |ops|
  {
    if |ops| == 0 then s else After(c, Performed(c, s, ops[0]), ops[1..])
  }

  /** Every serial history is a calm run. */
  lemma {:induction false} SerialIsCalm(c: Config, s: State, ops: seq<Operation>) returns (ts: seq<Step>)
    requires AtRest(s) && History(c, s, ops)
    ensures Run(CALM, c, s, ts) && End(CALM, c, s, ts) == After(c, s, ops) && AtRest(After(c, s, ops))
    decreases |ops|
  {
    if |ops| == 0 {
      ts := [];
    } else {
      var first := Steps(c, s, ops[0]);
      OperationIsCalm(c, s, ops[0]);
      var rest := SerialIsCalm(c, Performed(c, s, ops[0]), ops[1..]);
      RunsCompose(CALM, c, s, first, rest);
      ts := first + rest;
    }
  }

  /** Serial histories with Cancel and Ship keep every order on the transition table. */
  lemma SerialLifecycle(c: Config, n: nat, ops: seq<Operation>, id: Uuid)
    requires History(c, Start(n), ops) && id in After(c, Start(n), ops).orders
    ensures var s := After(c, Start(n), ops);
      && id in s.lives
      && IsPath(s.lives[id].trail)
      && s.lives[id].trail[|s.lives[id].trail| - 1] == s.orders[id].status
      && |s.lives[id].trail| <= 4
  {
    var ts := SerialIsCalm(c, Start(n), ops);
    LifecycleIsSafe(c, n, ts, id);
  }
}
