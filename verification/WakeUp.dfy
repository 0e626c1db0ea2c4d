/**
 * FakeQueue under concurrency: any number of goroutines call Enqueue, Close and Dequeue, and every
 * locked section, every send on the one-slot notify channel and every receive is a step of its own.
 */
module WakeUp {
  /** Where a consumer goroutine is. */
  datatype Consumer =
    | Looking    // about to lock the queue and look at it
    | Asleep     // saw an empty, open queue and sits in the select
    | Away       // got a message and has yet to call Dequeue again
    | Gone       // its Dequeue returned an error

  datatype System<T> = System(
    msgs: seq<T>,
    token: bool,               // the notify channel holds a token
    closed: bool,
    cancelled: bool,           // the consumers' context is done
    posters: nat,              // Enqueue or Close calls that unlocked and have yet to send
    consumers: seq<Consumer>,
    appended: seq<T>,          // everything ever enqueued
    popped: seq<T>)            // everything ever delivered

  datatype Step<T> =
    | Append(x: T)    // Enqueue, up to its unlock
    | Shut            // Close, up to its unlock
    | Post            // the non-blocking send, dropped when the slot is full
    | Cancel
    | Look(i: nat)
    | Wake(i: nat)    // the select receives from the notify channel
    | Quit(i: nat)    // the select takes ctx.Done
    | Return(i: nat)  // the consumer calls Dequeue again

  predicate Enabled<T>(s: System<T>, t: Step<T>) {
    match t
    case Append(_) => true
    case Shut => true
    case Post => s.posters > 0
    case Cancel => true
    case Look(i) => i < |s.consumers| && s.consumers[i].Looking?
    case Wake(i) => i < |s.consumers| && s.consumers[i].Asleep? && s.token
    case Quit(i) => i < |s.consumers| && s.consumers[i].Asleep? && s.cancelled
    case Return(i) => i < |s.consumers| && s.consumers[i].Away?
  }

  function Apply<T>(s: System<T>, t: Step<T>): System<T>
    requires Enabled(s, t)
  {
    match t
    case Append(x) => s.(msgs := s.msgs + [x], appended := s.appended + [x], posters := s.posters + 1)
    case Shut => s.(closed := true, posters := s.posters + 1)
    case Post => s.(token := true, posters := s.posters - 1)
    case Cancel => s.(cancelled := true)
    case Look(i) =>
      if |s.msgs| > 0 then
        s.(msgs := s.msgs[1..], popped := s.popped + [s.msgs[0]], consumers := s.consumers[i := Away])
      else s.(consumers := s.consumers[i := if s.closed then Gone else Asleep])
    case Wake(i) => s.(token := false, consumers := s.consumers[i := Looking])
    case Quit(i) => s.(consumers := s.consumers[i := Gone])
    case Return(i) => s.(consumers := s.consumers[i := Looking])
  }

  function Start<T>(n: nat): System<T> {
    System([], false, false, false, 0, seq(n, _ => Looking), [], [])
  }

  predicate Run<T>(s: System<T>, ts: seq<Step<T>>)
    decreases |ts|
  {
    |ts| == 0 || (Enabled(s, ts[0]) && Run(Apply(s, ts[0]), ts[1..]))
  }

  function End<T>(s: System<T>, ts: seq<Step<T>>): System<T>
    requires Run(s, ts)
    decreases |ts|
  {
    if |ts| == 0 then s else End(Apply(s, ts[0]), ts[1..])
  }

  predicate Awake(consumer: Consumer) {
    consumer.Looking? || consumer.Away?
  }

  /** A queued message always has somebody on the way to it: a token, a poster, or an awake consumer. */
  ghost predicate Attended<T>(s: System<T>) {
    s.msgs != [] ==>
      s.token || s.posters > 0 || exists i :: 0 <= i < |s.consumers| && Awake(s.consumers[i])
  }

  ghost predicate Inv<T>(s: System<T>) {
    Attended(s) && s.appended == s.popped + s.msgs
  }

  lemma StepKeepsInv<T>(s: System<T>, t: Step<T>)
    requires Inv(s) && Enabled(s, t)
    ensures Inv(Apply(s, t))
  {
    var s' := Apply(s, t);
    match t
    case Append(x) =>
    case Shut =>
    case Post =>
    case Cancel =>
    case Look(i) =>
      if |s.msgs| > 0 {
        assert Awake(s'.consumers[i]);
        assert s.msgs == [s.msgs[0]] + s.msgs[1..];
      }
    case Wake(i) => assert Awake(s'.consumers[i]);
    case Quit(i) =>
      if s.msgs != [] && !s.token && s.posters == 0 {
        var j :| 0 <= j < |s.consumers| && Awake(s.consumers[j]);
        assert Awake(s'.consumers[j]);
      }
    case Return(i) => assert Awake(s'.consumers[i]);
  }

  lemma RunKeepsInv<T>(s: System<T>, ts: seq<Step<T>>)
    requires Inv(s) && Run(s, ts)
    ensures Inv(End(s, ts))
    decreases |ts|
  {
    if |ts| == 0 {
    } else {
      StepKeepsInv(s, ts[0]);
      RunKeepsInv(Apply(s, ts[0]), ts[1..]);
    }
  }

  /**
   * No lost wake-up: although Enqueue may drop its token and consumers may leave on cancellation,
   * no reachable state has messages queued, no token pending or about to be posted, and nobody
   * awake. Deliveries are the enqueued messages, in order, each once.
   */
  lemma NoLostWakeUp<T>(n: nat, ts: seq<Step<T>>)
    requires Run(Start<T>(n), ts)
    ensures var s := End(Start<T>(n), ts);
      && !(s.msgs != [] && !s.token && s.posters == 0
           && forall i :: 0 <= i < |s.consumers| ==> s.consumers[i].Asleep? || s.consumers[i].Gone?)
      && s.appended == s.popped + s.msgs
  {
    RunKeepsInv(Start<T>(n), ts);
  }

  ghost predicate SomebodyLeft<T>(s: System<T>) {
    exists i :: 0 <= i < |s.consumers| && !s.consumers[i].Gone?
  }

  lemma RunTwo<T>(s: System<T>, t: Step<T>, u: Step<T>)
    requires Enabled(s, t) && Enabled(Apply(s, t), u)
    ensures Run(s, [t, u]) && End(s, [t, u]) == Apply(Apply(s, t), u)
  {
    RunCons(Apply(s, t), u, []);
    RunCons(s, t, [u]);
    assert [u] + [] == [u] && [t] + [u] == [t, u];
  }

  /**
   * Progress: whenever messages are queued, no send is outstanding and a consumer is left, the
   * consumers alone deliver the next message within two steps.
   */
  lemma NextMessageIsTwoStepsAway<T>(s: System<T>) returns (ts: seq<Step<T>>)
    requires Inv(s) && s.msgs != [] && s.posters == 0 && SomebodyLeft(s)
    ensures |ts| <= 2 && Run(s, ts)
    ensures forall k :: 0 <= k < |ts| ==> ts[k].Look? || ts[k].Wake? || ts[k].Return?
    ensures End(s, ts).popped == s.popped + [s.msgs[0]]
  {
    if exists i :: 0 <= i < |s.consumers| && s.consumers[i].Looking? {
      var i: nat :| i < |s.consumers| && s.consumers[i].Looking?;
      ts := [Look(i)];
      assert ts[1..] == [];
    } else if exists i :: 0 <= i < |s.consumers| && s.consumers[i].Away? {
      var i: nat :| i < |s.consumers| && s.consumers[i].Away?;
      RunTwo(s, Return(i), Look(i));
      ts := [Return(i), Look(i)];
    } else {
      var i: nat :| i < |s.consumers| && !s.consumers[i].Gone?;
      RunTwo(s, Wake(i), Look(i));
      ts := [Wake(i), Look(i)];
    }
  }

  lemma RunCons<T>(s: System<T>, t: Step<T>, rest: seq<Step<T>>)
    requires Enabled(s, t) && Run(Apply(s, t), rest)
    ensures Run(s, [t] + rest) && End(s, [t] + rest) == End(Apply(s, t), rest)
  {
    assert ([t] + rest)[1..] == rest;
  }

  // ---- Closing ----

  /** How many consumers sit in the select. */
  function Sleepers(consumers: seq<Consumer>): nat {
    if consumers == [] then 0
    else Sleepers(consumers[..|consumers| - 1]) + if consumers[|consumers| - 1].Asleep? then 1 else 0
  }

  lemma {:induction false} SleepersUpdate(cs: seq<Consumer>, i: nat, x: Consumer)
    requires i < |cs|
    ensures Sleepers(cs[i := x]) + (if cs[i].Asleep? then 1 else 0) == Sleepers(cs) + (if x.Asleep? then 1 else 0)
    decreases |cs|
  {
    var n := |cs| - 1;
    if i == n {
      assert cs[i := x][..n] == cs[..n];
    } else {
      SleepersUpdate(cs[..n], i, x);
      assert cs[i := x][..n] == cs[..n][i := x];
    }
  }

  lemma {:induction false} SomebodySleeps(cs: seq<Consumer>, i: nat)
    requires i < |cs| && cs[i].Asleep?
    ensures Sleepers(cs) >= 1
    decreases |cs|
  {
    if i < |cs| - 1 {
      SomebodySleeps(cs[..|cs| - 1], i);
    }
  }

  lemma {:induction false} NobodySleeps(cs: seq<Consumer>)
    requires forall i :: 0 <= i < |cs| ==> !cs[i].Asleep?
    ensures Sleepers(cs) == 0
  {
    if cs == [] {
    } else {
      NobodySleeps(cs[..|cs| - 1]);
    }
  }

  /** The tokens there are and those about to be posted. */
  function Tokens<T>(s: System<T>): nat {
    s.posters + if s.token then 1 else 0
  }

  /** Closed and drained, with the consumers' context still alive. */
  predicate Closed<T>(s: System<T>) {
    s.closed && !s.cancelled && s.msgs == []
  }

  /** Nothing from outside: no further Enqueue, Close or cancellation. */
  predicate Internal<T>(t: Step<T>) {
    !t.Append? && !t.Shut? && !t.Cancel?
  }

  ghost predicate AllInternal<T>(ts: seq<Step<T>>) {
    forall k :: 0 <= k < |ts| ==> Internal(ts[k])
  }

  lemma StepKeepsShortage<T>(s: System<T>, t: Step<T>)
    requires Closed(s) && Enabled(s, t) && Internal(t)
    ensures var s' := Apply(s, t);
      && Closed(s')
      && Sleepers(s'.consumers) - Tokens(s') >= Sleepers(s.consumers) - Tokens(s)
      && (!t.Post? || !s.token ==> Sleepers(s'.consumers) - Tokens(s') == Sleepers(s.consumers) - Tokens(s))
  {
    if !t.Post? {
      SleepersUpdate(s.consumers, t.i, Apply(s, t).consumers[t.i]);
    }
  }

  /** However the system goes on, at least so many sleep on as there are tokens too few. */
  lemma {:induction false} ShortageStays<T>(s: System<T>, ts: seq<Step<T>>)
    requires Closed(s) && Run(s, ts) && AllInternal(ts)
    ensures Sleepers(End(s, ts).consumers) >= Sleepers(s.consumers) - Tokens(s)
    decreases |ts|
  {
    if |ts| == 0 {
    } else {
      StepKeepsShortage(s, ts[0]);
      assert Internal(ts[0]);
      ShortageRest(s, ts);
      ShortageStays(Apply(s, ts[0]), ts[1..]);
    }
  }

  lemma ShortageRest<T>(s: System<T>, ts: seq<Step<T>>)
    requires |ts| > 0 && AllInternal(ts)
    ensures AllInternal(ts[1..])
  {
  }

  predicate AllGone<T>(s: System<T>) {
    forall i :: 0 <= i < |s.consumers| ==> s.consumers[i].Gone?
  }

  predicate NobodyAsleep<T>(s: System<T>) {
    forall i :: 0 <= i < |s.consumers| ==> !s.consumers[i].Asleep?
  }

  /** How far a consumer is from returning. */
  function Distance(consumer: Consumer): nat {
    match consumer
    case Gone => 0
    case Looking => 1
    case Asleep => 2
    case Away => 2
  }

  function Distances(consumers: seq<Consumer>): nat {
    if consumers == [] then 0 else Distances(consumers[..|consumers| - 1]) + Distance(consumers[|consumers| - 1])
  }

  lemma {:induction false} DistancesUpdate(cs: seq<Consumer>, i: nat, x: Consumer)
    requires i < |cs|
    ensures Distances(cs[i := x]) + Distance(cs[i]) == Distances(cs) + Distance(x)
    decreases |cs|
  {
    var n := |cs| - 1;
    if i == n {
      assert cs[i := x][..n] == cs[..n];
    } else {
      DistancesUpdate(cs[..n], i, x);
      assert cs[i := x][..n] == cs[..n][i := x];
    }
  }

  /** A step that brings somebody closer to returning without wasting a token. */
  lemma NextRelease<T>(s: System<T>) returns (t: Step<T>)
    requires Closed(s) && Sleepers(s.consumers) <= Tokens(s) && !AllGone(s)
    ensures Enabled(s, t) && Internal(t) && Closed(Apply(s, t))
    ensures Sleepers(Apply(s, t).consumers) <= Tokens(Apply(s, t))
    ensures var s' := Apply(s, t);
      || Distances(s'.consumers) < Distances(s.consumers)
      || (Distances(s'.consumers) == Distances(s.consumers) && s'.posters < s.posters)
  {
    var i: nat :| i < |s.consumers| && !s.consumers[i].Gone?;
    if s.consumers[i].Asleep? {
      SomebodySleeps(s.consumers, i);
    }
    t := if s.consumers[i].Looking? then Look(i)
         else if s.consumers[i].Away? then Return(i)
         else if s.token then Wake(i)
         else Post;
    StepKeepsShortage(s, t);
    if !t.Post? {
      DistancesUpdate(s.consumers, i, Apply(s, t).consumers[i]);
    }
  }

  lemma {:induction false} ReleaseAll<T>(s: System<T>) returns (ts: seq<Step<T>>)
    requires Closed(s) && Sleepers(s.consumers) <= Tokens(s)
    ensures Run(s, ts) && AllInternal(ts) && AllGone(End(s, ts))
    decreases Distances(s.consumers), s.posters
  {
    if AllGone(s) {
      ts := [];
    } else {
      var t := NextRelease(s);
      var rest := ReleaseAll(Apply(s, t));
      RunCons(s, t, rest);
      ts := [t] + rest;
    }
  }

  ghost predicate CanRelease<T(!new)>(s: System<T>) {
    exists ts :: Run(s, ts) && AllInternal(ts) && AllGone(End(s, ts))
  }

  ghost predicate CanWake<T(!new)>(s: System<T>) {
    exists ts :: Run(s, ts) && AllInternal(ts) && NobodyAsleep(End(s, ts))
  }

  /**
   * A closed, drained queue can let everybody go, or at least wake everybody, if and only if it has
   * a token for every sleeper.
   */
  lemma ReleasedIffEnoughTokens<T(!new)>(s: System<T>)
    requires Closed(s)
    ensures CanRelease(s) <==> Sleepers(s.consumers) <= Tokens(s)
    ensures CanWake(s) <==> Sleepers(s.consumers) <= Tokens(s)
  {
    if Sleepers(s.consumers) <= Tokens(s) {
      var ts := ReleaseAll(s);
      assert NobodyAsleep(End(s, ts));
    }
    forall ts | Run(s, ts) && AllInternal(ts) && NobodyAsleep(End(s, ts))
      ensures Sleepers(s.consumers) <= Tokens(s)
    {
      ShortageStays(s, ts);
      NobodySleeps(End(s, ts).consumers);
    }
    assert forall ts :: Run(s, ts) && AllGone(End(s, ts)) ==> NobodyAsleep(End(s, ts));
  }

  /** Close on a drained queue can release everybody if and only if at most one more sleeps than there are tokens. */
  lemma CloseCanReleaseAllIff<T(!new)>(s: System<T>)
    requires s.msgs == [] && !s.cancelled
    ensures CanRelease(Apply(s, Shut)) <==> Sleepers(s.consumers) <= Tokens(s) + 1
  {
    ReleasedIffEnoughTokens(Apply(s, Shut));
  }

  // ---- What is sure to happen ----

  /** No goroutine of the queue can take another step. */
  predicate Stuck<T>(s: System<T>) {
    && s.posters == 0
    && forall i :: 0 <= i < |s.consumers| ==>
         !s.consumers[i].Looking? && !s.consumers[i].Away? && (s.consumers[i].Asleep? ==> !s.token)
  }

  /** Stuck means just that: no internal step is enabled. */
  lemma StuckIff<T(!new)>(s: System<T>)
    requires Closed(s)
    ensures Stuck(s) <==> forall t: Step<T> :: Internal(t) ==> !Enabled(s, t)
  {
    if !Stuck(s) {
      if s.posters > 0 {
        assert Enabled(s, Post);
      } else {
        var i: nat :| i < |s.consumers|
          && (s.consumers[i].Looking? || s.consumers[i].Away? || (s.consumers[i].Asleep? && s.token));
        assert Enabled(s, Look(i)) || Enabled(s, Return(i)) || Enabled(s, Wake(i));
      }
    }
  }

  lemma StepIsCloser<T>(s: System<T>, t: Step<T>)
    requires Closed(s) && Enabled(s, t) && Internal(t)
    ensures Distances(Apply(s, t).consumers) + Apply(s, t).posters < Distances(s.consumers) + s.posters
  {
    if !t.Post? {
      DistancesUpdate(s.consumers, t.i, Apply(s, t).consumers[t.i]);
    }
  }

  /** A closed queue comes to rest, whatever the schedule: its internal runs are bounded. */
  lemma {:induction false} ClosedRunsEnd<T>(s: System<T>, ts: seq<Step<T>>)
    requires Closed(s) && Run(s, ts) && AllInternal(ts)
    ensures |ts| <= Distances(s.consumers) + s.posters && Closed(End(s, ts))
    decreases |ts|
  {
    if |ts| == 0 {
    } else {
      assert Internal(ts[0]);
      StepIsCloser(s, ts[0]);
      StepKeepsShortage(s, ts[0]);
      ShortageRest(s, ts);
      ClosedRunsEnd(Apply(s, ts[0]), ts[1..]);
    }
  }

  /** The sleepers that are sure to be reached: a token that finds another in the slot is dropped. */
  function SureTokens<T>(s: System<T>): nat {
    if Tokens(s) > 0 then 1 else 0
  }

  lemma {:induction false} SureStays<T>(s: System<T>, ts: seq<Step<T>>)
    requires Closed(s) && Run(s, ts) && AllInternal(ts) && Sleepers(s.consumers) <= SureTokens(s)
    ensures Closed(End(s, ts)) && Sleepers(End(s, ts).consumers) <= SureTokens(End(s, ts))
    decreases |ts|
  {
    if |ts| == 0 {
    } else {
      assert Internal(ts[0]);
      StepKeepsShortage(s, ts[0]);
      if !ts[0].Post? {
        SleepersUpdate(s.consumers, ts[0].i, Apply(s, ts[0]).consumers[ts[0].i]);
      }
      ShortageRest(s, ts);
      SureStays(Apply(s, ts[0]), ts[1..]);
    }
  }

  lemma StuckAndSureIsGone<T>(s: System<T>)
    requires Stuck(s) && Sleepers(s.consumers) <= SureTokens(s)
    ensures AllGone(s)
  {
    forall i | 0 <= i < |s.consumers| ensures s.consumers[i].Gone? {
      if s.consumers[i].Asleep? {
        SomebodySleeps(s.consumers, i);
      }
    }
  }

  /** A schedule that posts everything first, so that all tokens but one are dropped. */
  lemma {:induction false} WorstSchedule<T>(s: System<T>) returns (ts: seq<Step<T>>)
    requires Closed(s)
    ensures Run(s, ts) && AllInternal(ts) && Stuck(End(s, ts))
    ensures Sleepers(End(s, ts).consumers) >= Sleepers(s.consumers) - SureTokens(s)
    decreases Distances(s.consumers) + s.posters
  {
    if Stuck(s) {
      ts := [];
    } else {
      var t: Step<T>;
      if s.posters > 0 {
        t := Post;
      } else {
        var i: nat :| i < |s.consumers|
          && (s.consumers[i].Looking? || s.consumers[i].Away? || (s.consumers[i].Asleep? && s.token));
        t := if s.consumers[i].Looking? then Look(i) else if s.consumers[i].Away? then Return(i) else Wake(i);
        SleepersUpdate(s.consumers, i, Apply(s, t).consumers[i]);
      }
      StepIsCloser(s, t);
      StepKeepsShortage(s, t);
      var rest := WorstSchedule(Apply(s, t));
      RunCons(s, t, rest);
      ts := [t] + rest;
    }
  }

  /** However the goroutines are scheduled, in the end every consumer is gone. */
  ghost predicate SureRelease<T(!new)>(s: System<T>) {
    forall ts :: Run(s, ts) && AllInternal(ts) && Stuck(End(s, ts)) ==> AllGone(End(s, ts))
  }

  /**
   * A closed, drained queue is sure to let everybody go if and only if nobody sleeps, or one
   * consumer does and a token is there or on its way.
   */
  lemma SureReleaseIff<T(!new)>(s: System<T>)
    requires Closed(s)
    ensures SureRelease(s) <==> Sleepers(s.consumers) <= SureTokens(s)
  {
    if Sleepers(s.consumers) <= SureTokens(s) {
      forall ts | Run(s, ts) && AllInternal(ts) && Stuck(End(s, ts)) ensures AllGone(End(s, ts)) {
        SureStays(s, ts);
        StuckAndSureIsGone(End(s, ts));
      }
    } else {
      var ts := WorstSchedule(s);
      if AllGone(End(s, ts)) {
        NobodySleeps(End(s, ts).consumers);
      }
    }
  }

  /** Close on a drained queue is sure to unblock every Dequeue call if and only if at most one sleeps. */
  lemma CloseReleasesAllIff<T(!new)>(s: System<T>)
    requires s.msgs == [] && !s.cancelled
    ensures SureRelease(Apply(s, Shut)) <==> Sleepers(s.consumers) <= 1
  {
    SureReleaseIff(Apply(s, Shut));
  }

  /**
   * The token of Close can be dropped. A reachable queue with two sleepers and a token of an earlier
   * Enqueue still in the slot: Close can release both, and is not sure to.
   */
  lemma CloseTokenCanBeDropped() returns (ts: seq<Step<int>>)
    ensures Run(Start<int>(3), ts)
    ensures var s := End(Start<int>(3), ts);
      && s.consumers == [Asleep, Asleep, Away] && s.token && s.posters == 0 && s.msgs == []
      && CanRelease(Apply(s, Shut)) && !SureRelease(Apply(s, Shut))
  {
    var s0 := Start<int>(3);
    assert s0.consumers == [Looking, Looking, Looking];
    RunTwo(s0, Look(0), Look(1));
    var s2 := Apply(Apply(s0, Look(0)), Look(1));
    assert s2.consumers == [Asleep, Asleep, Looking];
    RunTwo(s2, Append(7), Post);
    var s4 := Apply(Apply(s2, Append(7)), Post);
    var s5 := Apply(s4, Look(2));
    assert s5.msgs == [] && s5.consumers == [Asleep, Asleep, Away];
    RunCons(s4, Look(2), []);
    RunsCompose(s2, [Append(7), Post], [Look(2)]);
    RunsCompose(s0, [Look(0), Look(1)], [Append(7), Post] + [Look(2)]);
    ts := [Look(0), Look(1)] + ([Append(7), Post] + [Look(2)]);
    TwoOfThreeSleep();
    CloseCanReleaseAllIff(s5);
    CloseReleasesAllIff(s5);
  }

  lemma TwoOfThreeSleep()
    ensures Sleepers([Asleep, Asleep, Away]) == 2
  {
    var one, two, three := [Asleep], [Asleep, Asleep], [Asleep, Asleep, Away];
    assert one[..0] == [];
    assert Sleepers(one) == 1;
    assert two[..1] == one;
    assert Sleepers(two) == 2;
    assert three[..2] == two;
  }

  /** Close posts one token only: of two sleeping consumers one wakes and leaves, the other sleeps on. */
  lemma CloseWakesOnlyOne() returns (ts: seq<Step<int>>)
    ensures Run(Start<int>(2), ts)
    ensures var s := End(Start<int>(2), ts);
      s.closed && s.posters == 0 && !s.token && s.consumers == [Gone, Asleep]
  {
    var s0 := Start<int>(2);
    assert s0.consumers == [Looking, Looking];
    RunTwo(s0, Look(0), Look(1));
    var s2 := Apply(Apply(s0, Look(0)), Look(1));
    assert s2.consumers == [Asleep, Asleep];
    ClosingWakesOne(s2);
    RunsCompose(s0, [Look(0), Look(1)], [Shut, Post, Wake(0), Look(0)]);
    ts := [Look(0), Look(1)] + [Shut, Post, Wake(0), Look(0)];
  }

  lemma ClosingWakesOne(s: System<int>)
    requires s.consumers == [Asleep, Asleep] && s.msgs == [] && !s.token && s.posters == 0
    ensures var ts := [Shut, Post, Wake(0), Look(0)];
      && Run(s, ts)
      && var s' := End(s, ts); s'.closed && s'.posters == 0 && !s'.token && s'.consumers == [Gone, Asleep]
  {
    var s1 := Apply(Apply(s, Shut), Post);
    assert Apply(s1, Wake(0)).consumers == [Looking, Asleep];
    RunTwo(s, Shut, Post);
    RunTwo(s1, Wake(0), Look(0));
    RunsCompose(s, [Shut, Post], [Wake(0), Look(0)]);
    var first: seq<Step<int>>, last: seq<Step<int>> := [Shut, Post], [Wake(0), Look(0)];
    assert first + last == [Shut, Post, Wake(0), Look(0)];
  }

  lemma {:induction false} RunsCompose<T>(s: System<T>, ts: seq<Step<T>>, us: seq<Step<T>>)
    requires Run(s, ts) && Run(End(s, ts), us)
    ensures Run(s, ts + us) && End(s, ts + us) == End(End(s, ts), us)
    decreases |ts|
  {
    if |ts| == 0 {
      assert ts + us == us;
    } else {
      RunsCompose(Apply(s, ts[0]), ts[1..], us);
      RunCons(s, ts[0], ts[1..] + us);
      assert [ts[0]] + (ts[1..] + us) == ts + us;
    }
  }
}
