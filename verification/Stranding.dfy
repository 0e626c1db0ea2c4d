/**
 * Orders that are left in Processing for good: exactly which failures strand an order, and that
 * nothing else does.
 */
module Stranding {
  import opened Basics
  import opened OrderModel
  import opened Pipeline
  import opened Places
  import opened OneOrder
  import opened Projection
  import opened Guarantees

  /** A worker is on its way from the Processing write to the write that settles the order. */
  predicate Charging(worker: Worker) {
    worker.Paying? || worker.Recording?
  }

  /** In Processing, and no worker will ever write another status: a retry ignores the order. */
  predicate Stranded(x: Solo) {
    x.order.status == Processing && !(x.life.phase.InHand? && Charging(x.life.phase.worker))
  }

  ghost predicate NobodyStranded(s: State) {
    forall id :: Known(s, id) ==> !Stranded(The(s, id))
  }

  /**
   * The failures that strand an order: a MarkProcessed that fails cleanly, a write of Processing
   * that takes effect and still reports an error, and the death of a worker in between.
   */
  predicate Strands(s: State, t: Step)
    requires Enabled(s, t)
  {
    match t
    case Claim(_, _, outcome) => outcome == DirtyError
    case Record(_, _, outcome) => outcome == CleanError
    case Crash(w) => Charging(s.workers[w])
    case _ => false
  }

  // ---- One order ----

  predicate SoloStrands(x: Solo, t: Step)
    requires SoloEnabled(x.life, t)
  {
    match t
    case Claim(_, _, outcome) => outcome == DirtyError
    case Record(_, _, outcome) => outcome == CleanError
    case Crash(_) => Charging(x.life.phase.worker)
    case _ => false
  }

  lemma SoloStrandedIff(c: Config, x: Solo, t: Step)
    requires SoloInv(PATIENT, c, x) && SoloAllowed(PATIENT, x, t)
    ensures Stranded(SoloStep(c, x, t)) <==> Stranded(x) || SoloStrands(x, t)
  {
  }

  lemma NewIsNotStranded(s: State, order: Order, items: seq<Item>, outcome: Outcome)
    requires order.id !in s.orders && order.status == Created
    ensures NobodyStranded(CommitStep(s, order, items, outcome)) <==> NobodyStranded(s)
  {
    var s' := CommitStep(s, order, items, outcome);
    forall id | Known(s, id) ensures Known(s', id) && The(s', id) == The(s, id) {
    }
  }

  // ---- The system ----

  lemma ChangeStrands(s: State, s': State, id: Uuid, x: Solo)
    requires Known(s, id) && Becomes(s, s', id, x) && (Stranded(The(s, id)) ==> Stranded(x))
    ensures NobodyStranded(s') <==> NobodyStranded(s) && !Stranded(x)
  {
    assert Known(s', id) && The(s', id) == x;
    forall y | y != id ensures Known(s', y) <==> Known(s, y) {
    }
    forall y | y != id && Known(s, y) ensures The(s', y) == The(s, y) {
    }
  }

  lemma SubjectStrands(c: Config, s: State, t: Step)
    requires Inv(PATIENT, c, s) && Allowed(PATIENT, s, t) && Moves(t)
    ensures var id := Subject(s, t);
      && Known(s, id) && SoloAllowed(PATIENT, The(s, id), t)
      && (Strands(s, t) <==> SoloStrands(The(s, id), t))
  {
    AllowedProjects(PATIENT, c, s, t);
    if t.Crash? {
      HolderIsAlone(s, t.w);
    }
  }

  lemma MoveStrandsIff(c: Config, s: State, t: Step)
    requires Inv(PATIENT, c, s) && Allowed(PATIENT, s, t) && Moves(t)
    ensures NobodyStranded(Apply(c, s, t)) <==> NobodyStranded(s) && !Strands(s, t)
  {
    var id := Subject(s, t);
    SubjectStrands(c, s, t);
    StepProjects(c, s, t);
    SoloStrandedIff(c, The(s, id), t);
    ChangeStrands(s, Apply(c, s, t), id, SoloStep(c, The(s, id), t));
  }

  /** A step leaves nobody stranded if and only if nobody was and the step is none of those failures. */
  lemma StrandingIsExact(c: Config, s: State, t: Step)
    requires Inv(PATIENT, c, s) && Allowed(PATIENT, s, t)
    ensures NobodyStranded(Apply(c, s, t)) <==> NobodyStranded(s) && !Strands(s, t)
  {
    if Moves(t) {
      MoveStrandsIff(c, s, t);
    } else if t.Commit? {
      NewIsNotStranded(s, t.order, t.items, t.outcome);
    } else {
      SameOrdersStranded(s, Apply(c, s, t));
    }
  }

  lemma SameOrdersStranded(s: State, s': State)
    requires s'.orders == s.orders && s'.lives == s.lives
    ensures NobodyStranded(s') <==> NobodyStranded(s)
  {
    forall id ensures Known(s', id) <==> Known(s, id) {
    }
    forall id | Known(s, id) ensures The(s', id) == The(s, id) {
    }
  }

  // ---- Whole runs ----

  /** Some step of the run is such a failure. */
  ghost predicate RunStrands(c: Config, s: State, ts: seq<Step>)
    requires Run(PATIENT, c, s, ts)
    decreases |ts|
  {
    |ts| > 0 && (Strands(s, ts[0]) || RunStrands(c, Apply(c, s, ts[0]), ts[1..]))
  }

  lemma {:induction false} RunStrandsIff(c: Config, s: State, ts: seq<Step>)
    requires Inv(PATIENT, c, s) && Run(PATIENT, c, s, ts)
    ensures NobodyStranded(End(PATIENT, c, s, ts)) <==> NobodyStranded(s) && !RunStrands(c, s, ts)
    decreases |ts|
  {
    if |ts| == 0 {
    } else {
      StrandingIsExact(c, s, ts[0]);
      StepKeepsInv(PATIENT, c, s, ts[0]);
      RunStrandsIff(c, Apply(c, s, ts[0]), ts[1..]);
    }
  }

  lemma RestingMeansStranded(c: Config, s: State)
    requires Inv(PATIENT, c, s) && AtRest(s)
    ensures NobodyStranded(s) <==> forall id :: id in s.orders ==> s.orders[id].status != Processing
  {
    forall id | id in s.orders ensures Known(s, id) && !The(s, id).life.phase.InHand? {
    }
  }

  /**
   * Once nobody has a message in hand, some order is left in Processing if and only if the run had
   * one of those failures: no other failure leaves an order in Processing, and nothing heals these.
   */
  lemma LeftInProcessingIff(c: Config, n: nat, ts: seq<Step>)
    requires Run(PATIENT, c, Start(n), ts) && AtRest(End(PATIENT, c, Start(n), ts))
    ensures var s := End(PATIENT, c, Start(n), ts);
      (exists id :: id in s.orders && s.orders[id].status == Processing) <==> RunStrands(c, Start(n), ts)
  {
    Reachable(PATIENT, c, n, ts);
    RunStrandsIff(c, Start(n), ts);
    RestingMeansStranded(c, End(PATIENT, c, Start(n), ts));
  }
}
