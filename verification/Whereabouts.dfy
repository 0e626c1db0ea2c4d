/**
 * What becomes of each single order: which events of a run leave it in the dead letters although
 * it is settled, in Processing, lost or never published, and that there is no other way to end.
 */
module Whereabouts {
  import opened Basics
  import opened OrderModel
  import opened Pipeline
  import opened Places
  import opened OneOrder
  import opened Projection
  import opened Guarantees
  import opened Stranding

  datatype Event =
    | DirtyRecord       // a MarkProcessed took effect and still reported an error
    | Strand            // one of the failures that strand an order in Processing
    | Loss              // its message was lost
    | NonPublication    // its message was never published

  /** The step is such an event, and this order is the one it hits. */
  predicate Hits(e: Event, s: State, t: Step, id: Uuid)
    requires Enabled(s, t)
  {
    match e
    case DirtyRecord => t.Record? && t.outcome == DirtyError && s.workers[t.w].msg.orderId == id
    case Strand => Strands(s, t) && s.workers[t.w].msg.orderId == id
    case Loss => LosesMessage(t) && s.workers[t.w].msg.orderId == id
    case NonPublication =>
      || (t.Publish? && t.id == id && t.outcome == CleanError)
      || (t.Commit? && t.order.id == id && t.outcome == DirtyError)
  }

  /** Such an event hit the order in the run. */
  ghost predicate Hit(e: Event, p: Policy, c: Config, s: State, ts: seq<Step>, id: Uuid)
    requires Run(p, c, s, ts)
    decreases |ts|
  {
    |ts| > 0 && (Hits(e, s, ts[0], id) || Hit(e, p, c, Apply(c, s, ts[0]), ts[1..], id))
  }

  // ---- One order ----

  predicate SoloHits(e: Event, x: Solo, t: Step)
    requires SoloEnabled(x.life, t)
  {
    match e
    case DirtyRecord => t.Record? && t.outcome == DirtyError
    case Strand => SoloStrands(x, t)
    case Loss => LosesMessage(t)
    case NonPublication => t.Publish? && t.outcome == CleanError
  }

  /** What an event leaves behind for good, and what nothing else does. */
  ghost predicate Marked(e: Event, hit: bool, x: Solo) {
    match e
    case DirtyRecord => if hit then Settled(x.order.status) else SettledIsFinished(x)
    case Strand => hit <==> Stranded(x)
    case Loss => hit <==> x.life.phase == Lost
    case NonPublication => hit <==> x.life.phase == Unsent
  }

  /** The first two events leave their mark only where no Cancel interferes. */
  predicate Telling(e: Event, p: Policy) {
    e.DirtyRecord? || e.Strand? ==> p.patient
  }

  lemma SoloMarks(e: Event, p: Policy, c: Config, x: Solo, t: Step, hit: bool)
    requires SoloInv(p, c, x) && SoloAllowed(p, x, t) && Telling(e, p) && Marked(e, hit, x)
    ensures Marked(e, hit || SoloHits(e, x, t), SoloStep(c, x, t))
  {
  }

  // ---- The system ----

  ghost predicate MarkedAt(e: Event, hit: bool, s: State, id: Uuid) {
    if Known(s, id) then Marked(e, hit, The(s, id)) else !hit
  }

  lemma SubjectIsHit(e: Event, p: Policy, c: Config, s: State, t: Step, id: Uuid)
    requires Inv(p, c, s) && Allowed(p, s, t) && Moves(t)
    ensures Known(s, Subject(s, t)) && SoloAllowed(p, The(s, Subject(s, t)), t)
    ensures Hits(e, s, t, id) <==> id == Subject(s, t) && SoloHits(e, The(s, id), t)
  {
    AllowedProjects(p, c, s, t);
    if t.ByWorker() && !t.Take? {
      SubjectInHand(s, t);
    }
  }

  lemma ChangeMarks(e: Event, s: State, s': State, subject: Uuid, x: Solo, id: Uuid, hit: bool)
    requires Known(s, subject) && Becomes(s, s', subject, x)
    requires if id == subject then Marked(e, hit, x) else MarkedAt(e, hit, s, id)
    ensures MarkedAt(e, hit, s', id)
  {
  }

  lemma CommitMarks(e: Event, s: State, order: Order, items: seq<Item>, outcome: Outcome, id: Uuid, hit: bool)
    requires order.id !in s.orders && order.status == Created && MarkedAt(e, hit, s, id)
    ensures MarkedAt(e, hit || (e.NonPublication? && order.id == id && outcome == DirtyError),
                     CommitStep(s, order, items, outcome), id)
  {
  }

  lemma MoveMarks(e: Event, p: Policy, c: Config, s: State, t: Step, id: Uuid, hit: bool)
    requires Inv(p, c, s) && Allowed(p, s, t) && Moves(t) && Telling(e, p) && MarkedAt(e, hit, s, id)
    ensures MarkedAt(e, hit || Hits(e, s, t, id), Apply(c, s, t), id)
  {
    var subject := Subject(s, t);
    SubjectIsHit(e, p, c, s, t, id);
    StepProjects(c, s, t);
    if id == subject {
      SoloMarks(e, p, c, The(s, id), t, hit);
      ChangeMarks(e, s, Apply(c, s, t), id, SoloStep(c, The(s, id), t), id, hit || SoloHits(e, The(s, id), t));
    } else {
      ChangeMarks(e, s, Apply(c, s, t), subject, SoloStep(c, The(s, subject), t), id, hit);
    }
  }

  lemma QuietMarks(e: Event, c: Config, s: State, t: Step, id: Uuid, hit: bool)
    requires Enabled(s, t) && (t.Check? || t.Leave?) && MarkedAt(e, hit, s, id)
    ensures !Hits(e, s, t, id) && MarkedAt(e, hit, Apply(c, s, t), id)
  {
  }

  lemma StepMarks(e: Event, p: Policy, c: Config, s: State, t: Step, id: Uuid, hit: bool)
    requires Inv(p, c, s) && Allowed(p, s, t) && Telling(e, p) && MarkedAt(e, hit, s, id)
    ensures MarkedAt(e, hit || Hits(e, s, t, id), Apply(c, s, t), id)
  {
    if Moves(t) {
      MoveMarks(e, p, c, s, t, id, hit);
    } else if t.Commit? {
      CommitMarks(e, s, t.order, t.items, t.outcome, id, hit);
    } else {
      QuietMarks(e, c, s, t, id, hit);
    }
  }

  lemma {:induction false} RunMarks(e: Event, p: Policy, c: Config, s: State, ts: seq<Step>, id: Uuid, hit: bool)
    requires Inv(p, c, s) && Run(p, c, s, ts) && Telling(e, p) && MarkedAt(e, hit, s, id)
    ensures MarkedAt(e, hit || Hit(e, p, c, s, ts, id), End(p, c, s, ts), id)
    decreases |ts|
  {
    if |ts| == 0 {
    } else {
      StepMarks(e, p, c, s, ts[0], id, hit);
      StepKeepsInv(p, c, s, ts[0]);
      RunMarks(e, p, c, Apply(c, s, ts[0]), ts[1..], id, hit || Hits(e, s, ts[0], id));
    }
  }

  lemma MarksOf(e: Event, p: Policy, c: Config, n: nat, ts: seq<Step>, id: Uuid)
    requires Run(p, c, Start(n), ts) && Coherent(p) && Telling(e, p)
    ensures Inv(p, c, End(p, c, Start(n), ts))
    ensures MarkedAt(e, Hit(e, p, c, Start(n), ts, id), End(p, c, Start(n), ts), id)
  {
    Reachable(p, c, n, ts);
    RunMarks(e, p, c, Start(n), ts, id, false);
  }

  // ---- What becomes of an order ----

  lemma DeadIsKnown(p: Policy, c: Config, s: State, k: nat)
    requires Inv(p, c, s) && k < |s.dead|
    ensures Known(s, s.dead[k].orderId) && s.lives[s.dead[k].orderId].phase == Dead(s.dead[k])
  {
    assert At(s.lives, s.dead[k].orderId, Dead(s.dead[k]));
  }

  /**
   * A dead letter belongs to a Paid, Failed or Shipped order if and only if, somewhere in the run, a
   * MarkProcessed of that order took effect and still reported an error.
   */
  lemma DeadLetterIsSettledIff(c: Config, n: nat, ts: seq<Step>, k: nat)
    requires Run(PATIENT, c, Start(n), ts) && k < |End(PATIENT, c, Start(n), ts).dead|
    ensures var s := End(PATIENT, c, Start(n), ts);
            var id := s.dead[k].orderId;
      && id in s.orders
      && (Settled(s.orders[id].status) <==> Hit(DirtyRecord, PATIENT, c, Start(n), ts, id))
  {
    var s := End(PATIENT, c, Start(n), ts);
    MarksOf(DirtyRecord, PATIENT, c, n, ts, s.dead[k].orderId);
    DeadIsKnown(PATIENT, c, s, k);
  }

  /** An order that no worker holds is in Processing if and only if one of the stranding failures hit it. */
  lemma IsInProcessingIff(c: Config, n: nat, ts: seq<Step>, id: Uuid)
    requires Run(PATIENT, c, Start(n), ts) && AtRest(End(PATIENT, c, Start(n), ts))
    requires id in End(PATIENT, c, Start(n), ts).orders
    ensures End(PATIENT, c, Start(n), ts).orders[id].status == Processing
       <==> Hit(Strand, PATIENT, c, Start(n), ts, id)
  {
    MarksOf(Strand, PATIENT, c, n, ts, id);
    assert !The(End(PATIENT, c, Start(n), ts), id).life.phase.InHand?;
  }

  predicate IsDead(s: State, id: Uuid) {
    exists k :: 0 <= k < |s.dead| && s.dead[k].orderId == id
  }

  /** Nothing is left to do: nothing queued, in hand or to be published. */
  predicate Drained(s: State) {
    s.queue == [] && s.publishing == {} && AtRest(s)
  }

  lemma DrainedPhases(p: Policy, c: Config, s: State, id: Uuid)
    requires Inv(p, c, s) && Drained(s) && Known(s, id)
    ensures var phase := s.lives[id].phase;
      && (phase == Unsent || phase == Lost || phase == Finished || phase.Dead?)
      && (IsDead(s, id) <==> phase.Dead?)
  {
    var phase := s.lives[id].phase;
    assert id in s.publishing <==> At(s.lives, id, Publishing);
    if phase.Dead? {
      var k :| 0 <= k < |s.dead| && s.dead[k] == phase.msg;
    }
    forall k | 0 <= k < |s.dead| && s.dead[k].orderId == id ensures phase.Dead? {
      DeadIsKnown(p, c, s, k);
    }
  }

  /**
   * Where orders end, in any environment: once nothing is left to do, an order that is still Created
   * was dead-lettered, or lost its message, or never had it published. At most one of the three
   * happens to any order, and the events of the run say which.
   */
  lemma CreatedOrdersAreAccountedFor(c: Config, n: nat, ts: seq<Step>, id: Uuid)
    requires Run(ANYTHING, c, Start(n), ts) && Drained(End(ANYTHING, c, Start(n), ts))
    requires id in End(ANYTHING, c, Start(n), ts).orders
    ensures var s := End(ANYTHING, c, Start(n), ts);
            var lost := Hit(Loss, ANYTHING, c, Start(n), ts, id);
            var unpublished := Hit(NonPublication, ANYTHING, c, Start(n), ts, id);
      && (s.orders[id].status == Created ==> IsDead(s, id) || lost || unpublished)
      && !(IsDead(s, id) && lost) && !(IsDead(s, id) && unpublished) && !(lost && unpublished)
  {
    var s := End(ANYTHING, c, Start(n), ts);
    MarksOf(Loss, ANYTHING, c, n, ts, id);
    MarksOf(NonPublication, ANYTHING, c, n, ts, id);
    DrainedPhases(ANYTHING, c, s, id);
  }
}
