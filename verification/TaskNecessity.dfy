/**
 The guards on releases are exact: whenever one of them fires, the run can go on, without firing
 again, to a body that has started too early or to a task with two start jobs.
 */
module TaskNecessity {
  import opened Options
  import opened TaskGraph
  import opened GraphBooks
  import opened TaskOrder
  import opened TaskStarts
  import opened TaskRuns
  import opened TaskDrain

  lemma StepThenRun(g: Graph, st: Step, rest: seq<Step>)
    requires Enabled(g, st) && CanRun(Next(g, st), rest)
    ensures CanRun(g, [st] + rest) && After(g, [st] + rest) == After(Next(g, st), rest)
  {
    hide Enabled, Next;
    assert ([st] + rest)[0] == st && ([st] + rest)[1..] == rest;
  }

  lemma StepThenUnhurt(g: Graph, st: Step, rest: seq<Step>, x: Id)
    requires Enabled(g, st) && CanRun(Next(g, st), rest)
    ensures CanRun(g, [st] + rest)
    ensures !Harmful(g, st, x) && NeverHarmful(Next(g, st), rest, x) ==> NeverHarmful(g, [st] + rest, x)
    ensures !Premature(g, st, x) && NeverPremature(Next(g, st), rest, x) ==> NeverPremature(g, [st] + rest, x)
  {
    hide Enabled, Next, Harmful, Premature;
    StepThenRun(g, st, rest);
    assert ([st] + rest)[0] == st && ([st] + rest)[1..] == rest;
  }

  // ---------------------------------------------------------------- pushing a ready task to its start

  /** A start job of `x` is in the hands of the finishing task `t` or in the queue. */
  predicate OnItsWay(g: Graph, t: Id, x: Id) {
    x in g.queue || (HasTask(g, t) && x in Ready(g.tasks[t]))
  }

  /** The counter of `x` cannot be found at 1 by any further release. */
  predicate Quelled(g: Graph, x: Id) {
    HasTask(g, x) && (g.tasks[x].counter == 0 || (g.tasks[x].counter == WORD - 1 && Uncounted(g, x) == 1))
  }

  ghost predicate Pushing(g: Graph, t: Id, x: Id, d: Id) {
    && GraphInv(g) && OnItsWay(g, t, x) && Quelled(g, x)
    && HasTask(g, x) && g.tasks[x].phase.Idle? && Lists(g, x, d) && IsOpen(g, Some(d))
  }

  function PushStep(g: Graph, t: Id, x: Id): Step
    requires OnItsWay(g, t, x)
  {
    if x in g.queue then Dequeue
    else if g.tasks[t].phase.Handing? then Hand(t)
    else if g.tasks[t].phase.cursor < |g.tasks[t].dependents| then Release(t)
    else ClearList(t)
  }

  lemma PushEnabled(g: Graph, t: Id, x: Id)
    requires AllShaped(g) && InRange(g) && OnItsWay(g, t, x)
    ensures Enabled(g, PushStep(g, t, x))
  {
    if x in g.queue {
      assert g.queue[0] in g.queue;
    } else {
      assert Shaped(g.tasks[t]) && Names(g, g.tasks[t].dependents);
      var st := PushStep(g, t, x);
      if st.Release? { assert g.tasks[t].dependents[g.tasks[t].phase.cursor] in g.tasks[t].dependents; }
    }
  }

  lemma PushPlace(g: Graph, t: Id, x: Id)
    requires OnItsWay(g, t, x) && Enabled(g, PushStep(g, t, x))
    ensures OnItsWay(Next(g, PushStep(g, t, x)), t, x)
         || (PushStep(g, t, x).Dequeue? && g.queue[0] == x)
  {
    if x in g.queue {
      assert x == g.queue[0] || x in g.queue[1..];
    } else if g.tasks[t].phase.Handing? {
      var ready := g.tasks[t].phase.ready;
      assert x == ready[0] || x in ready[1..];
      assert ready[0] in g.queue + [ready[0]];
    } else if PushStep(g, t, x).Release? {
      ReleaseShape(g, t);
    }
  }

  lemma QuelledStays(g: Graph, st: Step, x: Id)
    requires GraphInv(g) && Enabled(g, st) && Quelled(g, x)
    requires st.Dequeue? || st.Hand? || st.ClearList? || st.Release?
    ensures Quelled(Next(g, st), x) && !HitsZero(g, st, x)
  {
    hide Next, Owed, Starts, AllShaped, InRange, Gated, Sourced, Logged;
    TaskStep(g, st, x);
    CallStep(g, st, x);
    assert Counted(g, x);
    if Releases(g, st, x) { HitOwes(g, st, x); }
  }

  lemma PushOnce(g: Graph, t: Id, x: Id, d: Id)
    requires Pushing(g, t, x, d)
    ensures var st := PushStep(g, t, x);
            && Enabled(g, st) && NoNewWork(st) && !HitsZero(g, st, x)
            && (Pushing(Next(g, st), t, x, d) || Early(Next(g, st), x))
  {
    var st := PushStep(g, t, x);
    PushEnabled(g, t, x);
    PushPlace(g, t, x);
    hide Next, Books, Gated, Sourced, Logged, OnItsWay, Quelled;
    StepKeepsInv(g, st);
    QuelledStays(g, st, x);
    TaskStep(g, st, x);
    TaskStep(g, st, d);
    assert IsOpen(Next(g, st), Some(d)) && Some(d) in Next(g, st).tasks[x].listed;
  }

  lemma NoHitNoHurt(g: Graph, st: Step, x: Id)
    requires Enabled(g, st) && !HitsZero(g, st, x)
    ensures !Harmful(g, st, x) && !Premature(g, st, x)
  {
  }

  lemma PushOn(g: Graph, t: Id, x: Id, d: Id) returns (more: seq<Step>)
    requires Pushing(g, t, x, d)
    ensures CanRun(g, more) && NeverHarmful(g, more, x) && NeverPremature(g, more, x) && Early(After(g, more), x)
    decreases Remaining(g)
  {
    hide Next, Enabled, Early, Remaining, GraphInv, Harmful, Premature, HitsZero, PushStep;
    var st := PushStep(g, t, x);
    PushOnce(g, t, x, d);
    NoHitNoHurt(g, st, x);
    InvParts(g);
    StepLowers(g, st);
    var rest: seq<Step> := [];
    if !Early(Next(g, st), x) { rest := PushOn(Next(g, st), t, x, d); }
    StepThenRun(g, st, rest);
    StepThenUnhurt(g, st, rest, x);
    more := [st] + rest;
  }

  lemma InvParts(g: Graph)
    requires GraphInv(g)
    ensures AllShaped(g) && InRange(g)
  {
  }

  /** From a premature release on, the body can start while a dependency is open. */
  lemma PrematureStartsEarly(g: Graph, t: Id, x: Id) returns (more: seq<Step>)
    requires GraphInv(g) && Punctual(g, x) && Enabled(g, Release(t)) && Premature(g, Release(t), x)
    ensures var g' := Next(g, Release(t));
            CanRun(g', more) && NeverHarmful(g', more, x) && NeverPremature(g', more, x) && Early(After(g', more), x)
  {
    var d: Option<Id> :| d in g.tasks[x].listed && IsOpen(g, d);
    PushStarts(g, t, x, d.value);
    more := PushOn(Next(g, Release(t)), t, x, d.value);
  }

  lemma PushStarts(g: Graph, t: Id, x: Id, d: Id)
    requires GraphInv(g) && Punctual(g, x) && Enabled(g, Release(t)) && HitsZero(g, Release(t), x)
    requires Lists(g, x, d) && IsOpen(g, Some(d))
    ensures Pushing(Next(g, Release(t)), t, x, d)
  {
    ReleaseShape(g, t);
    assert x in Ready(Advanced(g, t));
    hide Next, Books, Gated, Sourced, Logged, Advanced, LoweredGraph, Readied, Ready, Unprocessed;
    StepKeepsInv(g, Release(t));
    TaskStep(g, Release(t), x);
    TaskStep(g, Release(t), d);
    TaskStep(g, Release(t), t);
    assert SomeOpen(g, g.tasks[x].listed);
  }

  // ---------------------------------------------------------------- a second start job

  /** `x` has a start job, its counter is at 1 again, and `u` will release it once more. */
  ghost predicate Doubling(g: Graph, u: Id, x: Id) {
    && GraphInv(g) && HasTask(g, x) && HasTask(g, u)
    && Starts(g, x) >= 1 && g.tasks[x].counter == 1
    && x in g.calls && !g.calls[x].uncounted && !SomeOpen(g, g.calls[x].rest)
    && x in Unprocessed(g.tasks[u]) && (g.tasks[u].phase.Flagged? || g.tasks[u].phase.Releasing?)
  }

  function DoubleStep(g: Graph, u: Id): Step
    requires HasTask(g, u)
  {
    if g.tasks[u].phase.Flagged? then StartRelease(u) else Release(u)
  }

  lemma DoubleEnabled(g: Graph, u: Id, x: Id)
    requires AllShaped(g) && InRange(g) && HasTask(g, u) && x in Unprocessed(g.tasks[u])
    requires g.tasks[u].phase.Flagged? || g.tasks[u].phase.Releasing?
    ensures Enabled(g, DoubleStep(g, u))
    ensures g.tasks[u].phase.Releasing? ==>
              Released(g, Release(u)) == x || x in Unprocessed(Next(g, Release(u)).tasks[u])
    ensures g.tasks[u].phase.Flagged? ==> x in Unprocessed(Next(g, StartRelease(u)).tasks[u])
  {
    assert Shaped(g.tasks[u]) && Names(g, g.tasks[u].dependents);
    if g.tasks[u].phase.Releasing? {
      var c, s := g.tasks[u].phase.cursor, g.tasks[u].dependents;
      assert s[c..] == [s[c]] + s[c + 1..] && s[c] in s;
      ReleaseShape(g, u);
    }
  }

  lemma ClosedTokensStay(g: Graph, st: Step, tokens: seq<Option<Id>>)
    requires Enabled(g, st) && KnownTokens(g, tokens) && !SomeOpen(g, tokens)
    ensures !SomeOpen(Next(g, st), tokens)
  {
    hide Next;
    forall d: Option<Id> | d in tokens ensures !IsOpen(Next(g, st), d) {
      if d.Some? { TaskStep(g, st, d.value); }
    }
  }

  lemma DoubleOnce(g: Graph, u: Id, x: Id)
    requires Doubling(g, u, x)
    ensures var st := DoubleStep(g, u);
            && Enabled(g, st) && NoNewWork(st) && !Harmful(g, st, x) && HasTask(Next(g, st), x)
            && (Doubling(Next(g, st), u, x) || Starts(Next(g, st), x) >= 2)
  {
    var st := DoubleStep(g, u);
    DoubleEnabled(g, u, x);
    PhaseAfterDouble(g, u);
    hide Next, Gated, Sourced, Logged, AllCounted, AllShaped, Starts, Unprocessed;
    StepKeepsInv(g, st);
    StartsStep(g, st, x);
    TaskStep(g, st, x);
    CallStep(g, st, x);
    assert KnownTokens(g, g.calls[x].rest);
    ClosedTokensStay(g, st, g.calls[x].rest);
  }

  lemma PhaseAfterDouble(g: Graph, u: Id)
    requires HasTask(g, u) && Enabled(g, DoubleStep(g, u))
    ensures HasTask(Next(g, DoubleStep(g, u)), u) && Next(g, DoubleStep(g, u)).tasks[u].phase.Releasing?
  {
  }

  lemma DoubleOn(g: Graph, u: Id, x: Id) returns (more: seq<Step>)
    requires Doubling(g, u, x)
    ensures CanRun(g, more) && NeverHarmful(g, more, x)
    ensures HasTask(After(g, more), x) && Starts(After(g, more), x) >= 2
    decreases Remaining(g)
  {
    hide Next, Enabled, Starts, Remaining, GraphInv, Harmful, DoubleStep, Unprocessed, SomeOpen;
    var st := DoubleStep(g, u);
    DoubleOnce(g, u, x);
    InvParts(g);
    StepLowers(g, st);
    var rest: seq<Step> := [];
    if Starts(Next(g, st), x) < 2 { rest := DoubleOn(Next(g, st), u, x); }
    StepThenRun(g, st, rest);
    StepThenUnhurt(g, st, rest, x);
    more := [st] + rest;
  }

  /** What is owed lies with a task that has not processed it; if no listed task is open, one that is finishing. */
  lemma FinishingHolder(g: Graph, x: Id) returns (u: Id)
    requires GraphInv(g) && HasTask(g, x) && Owed(g, x) > 0 && !SomeOpen(g, g.tasks[x].listed)
    ensures HasTask(g, u) && x in Unprocessed(g.tasks[u])
    ensures g.tasks[u].phase.Flagged? || g.tasks[u].phase.Releasing?
  {
    WaitingFrom(g.tasks, x);
    hide Waiting, AllCounted, InRange, Gated, Logged;
    u :| 0 <= u < |g.tasks| && x in Unprocessed(g.tasks[u]);
    assert Shaped(g.tasks[u]) && Source(g, u, x);
    assert !IsOpen(g, Some(u));
  }

  /** An uncounted registration with no open task: the count comes after the release, and a second release follows. */
  lemma UncountedStartsTwice(g: Graph, t: Id, x: Id) returns (more: seq<Step>)
    requires GraphInv(g) && Enabled(g, Release(t)) && HitsZero(g, Release(t), x)
    requires x in g.calls && g.calls[x].uncounted && !SomeOpen(g, g.tasks[x].listed)
    ensures var g' := Next(g, Release(t));
            && CanRun(g', more) && NeverHarmful(g', more, x)
            && HasTask(After(g', more), x) && Starts(After(g', more), x) >= 2
  {
    var g1 := Next(g, Release(t));
    CountNext(g, t, x);
    var g2 := Next(g1, Count(x));
    hide Next, Enabled, Starts, GraphInv, Harmful, SomeOpen, Owed, HitsZero, Unprocessed;
    var u := FinishingHolder(g2, x);
    var rest := DoubleOn(g2, u, x);
    StepThenRun(g1, Count(x), rest);
    CountIsHarmless(g1, x);
    StepThenUnhurt(g1, Count(x), rest, x);
    more := [Count(x)] + rest;
  }

  lemma CountIsHarmless(g: Graph, x: Id)
    requires Enabled(g, Count(x))
    ensures !Harmful(g, Count(x), x)
  {
  }

  lemma CountNext(g: Graph, t: Id, x: Id)
    requires GraphInv(g) && Enabled(g, Release(t)) && HitsZero(g, Release(t), x)
    requires x in g.calls && g.calls[x].uncounted && !SomeOpen(g, g.tasks[x].listed)
    ensures var g1 := Next(g, Release(t));
            && Enabled(g1, Count(x))
            && var g2 := Next(g1, Count(x));
               && GraphInv(g2) && HasTask(g2, x) && Starts(g2, x) >= 1 && g2.tasks[x].counter == 1
               && x in g2.calls && !g2.calls[x].uncounted && !SomeOpen(g2, g2.calls[x].rest)
               && Owed(g2, x) > 0 && !SomeOpen(g2, g2.tasks[x].listed)
  {
    var g1 := Next(g, Release(t));
    HitOwes(g, Release(t), x);
    AfterHit(g, t, x);
    AfterCount(g1, x);
  }

  lemma AfterHit(g: Graph, t: Id, x: Id)
    requires GraphInv(g) && Enabled(g, Release(t)) && HitsZero(g, Release(t), x)
    requires x in g.calls && !SomeOpen(g, g.tasks[x].listed)
    ensures var g1 := Next(g, Release(t));
            && GraphInv(g1) && HasTask(g1, x) && Starts(g1, x) >= 1 && g1.tasks[x].counter == 0
            && x in g1.calls && g1.calls[x] == g.calls[x]
            && Owed(g1, x) + 1 == Owed(g, x) && !SomeOpen(g1, g1.tasks[x].listed)
  {
    hide Next, Starts, Owed, Gated, Sourced, Logged, AllCounted;
    StepKeepsInv(g, Release(t));
    StartsStep(g, Release(t), x);
    OwedStep(g, Release(t), x);
    TaskStep(g, Release(t), x);
    CallStep(g, Release(t), x);
    ClosedStaysClosed(g, Release(t), x);
  }

  lemma AfterCount(g: Graph, x: Id)
    requires GraphInv(g) && HasTask(g, x) && Starts(g, x) >= 1 && g.tasks[x].counter == 0
    requires x in g.calls && g.calls[x].uncounted && !SomeOpen(g, g.tasks[x].listed)
    ensures Enabled(g, Count(x))
    ensures var g2 := Next(g, Count(x));
            && GraphInv(g2) && HasTask(g2, x) && Starts(g2, x) >= 1 && g2.tasks[x].counter == 1
            && x in g2.calls && !g2.calls[x].uncounted && !SomeOpen(g2, g2.calls[x].rest)
            && Owed(g2, x) == Owed(g, x) && !SomeOpen(g2, g2.tasks[x].listed)
  {
    hide Next, Starts, Owed, Gated, AllCounted, Logged;
    var g2 := Next(g, Count(x));
    StepKeepsInv(g, Count(x));
    StartsStep(g, Count(x), x);
    OwedStep(g, Count(x), x);
    TaskStep(g, Count(x), x);
    CallStep(g, Count(x), x);
    ClosedStaysClosed(g, Count(x), x);
    if SomeOpen(g2, g2.calls[x].rest) { OpenInRestIsListed(g2, x); }
  }

  // ---------------------------------------------------------------- the exact guards

  ghost predicate CanStartEarly(g: Graph, x: Id) {
    exists more :: CanRun(g, more) && NeverPremature(g, more, x) && Early(After(g, more), x)
  }

  /** The run can go on, without doing further harm, to an early start or a second start job. */
  ghost predicate CanMisstart(g: Graph, x: Id) {
    exists more ::
      && CanRun(g, more) && NeverHarmful(g, more, x) && HasTask(After(g, more), x)
      && (Early(After(g, more), x) || Starts(After(g, more), x) >= 2)
  }

  lemma PunctualCannot(g: Graph, x: Id)
    requires GraphInv(g) && Punctual(g, x)
    ensures !CanStartEarly(g, x)
  {
    forall more | CanRun(g, more) && NeverPremature(g, more, x) ensures !Early(After(g, more), x) {
      RunPunctual(g, more, x);
      PunctualIsNotEarly(After(g, more), x);
    }
  }

  lemma SingleCannot(g: Graph, x: Id)
    requires GraphInv(g) && Single(g, x)
    ensures !CanMisstart(g, x)
  {
    forall more | CanRun(g, more) && NeverHarmful(g, more, x) && HasTask(After(g, more), x)
      ensures !Early(After(g, more), x) && Starts(After(g, more), x) < 2
    {
      RunSingle(g, more, x);
      PunctualIsNotEarly(After(g, more), x);
    }
  }

  /**
   Exactly when a release endangers the order: after a run without premature releases of `x`, a
   release of `x` is premature if and only if some continuation without another one starts the
   body of `x` while a task it lists is open.
   */
  lemma PrematureIff(steps: seq<Step>, t: Id, x: Id)
    requires CanRun(EmptyGraph, steps) && NeverPremature(EmptyGraph, steps, x)
    requires var g := After(EmptyGraph, steps); Enabled(g, Release(t)) && Releases(g, Release(t), x)
    ensures var g := After(EmptyGraph, steps);
            Premature(g, Release(t), x) <==> CanStartEarly(Next(g, Release(t)), x)
  {
    var g := After(EmptyGraph, steps);
    EmptyGraphInv();
    RunKeepsInv(EmptyGraph, steps);
    RunPunctual(EmptyGraph, steps, x);
    hide CanRun, NeverPremature, After, GraphInv, Punctual, Next, Enabled, Premature, Early;
    if Premature(g, Release(t), x) {
      var more := PrematureStartsEarly(g, t, x);
      EarlyWitness(Next(g, Release(t)), more, x);
    } else {
      StepKeepsInv(g, Release(t));
      PunctualStep(g, Release(t), x);
      PunctualCannot(Next(g, Release(t)), x);
    }
  }

  lemma EarlyWitness(g: Graph, more: seq<Step>, x: Id)
    requires CanRun(g, more) && NeverPremature(g, more, x) && Early(After(g, more), x)
    ensures CanStartEarly(g, x)
  {
  }

  lemma MisstartWitness(g: Graph, more: seq<Step>, x: Id)
    requires CanRun(g, more) && NeverHarmful(g, more, x) && HasTask(After(g, more), x)
    requires Early(After(g, more), x) || Starts(After(g, more), x) >= 2
    ensures CanMisstart(g, x)
  {
  }

  lemma EarlyIsTask(g: Graph, x: Id)
    requires Early(g, x)
    ensures HasTask(g, x)
  {
  }

  /**
   Exactly when a release does harm: after a run without harmful releases of `x`, a release of `x`
   is harmful if and only if some continuation without another one starts `x` early or twice.
   */
  lemma HarmfulIff(steps: seq<Step>, t: Id, x: Id)
    requires CanRun(EmptyGraph, steps) && NeverHarmful(EmptyGraph, steps, x)
    requires var g := After(EmptyGraph, steps); Enabled(g, Release(t)) && Releases(g, Release(t), x)
    ensures var g := After(EmptyGraph, steps);
            Harmful(g, Release(t), x) <==> CanMisstart(Next(g, Release(t)), x)
  {
    var g := After(EmptyGraph, steps);
    EmptyGraphInv();
    RunKeepsInv(EmptyGraph, steps);
    RunSingle(EmptyGraph, steps, x);
    SingleIsPunctual(g, x);
    hide CanRun, NeverHarmful, After, GraphInv, Single, Punctual, Next, Enabled;
    if Harmful(g, Release(t), x) {
      HarmMisstarts(g, t, x);
    } else {
      StepKeepsInv(g, Release(t));
      SingleStep(g, Release(t), x);
      SingleCannot(Next(g, Release(t)), x);
    }
  }

  lemma SingleIsPunctual(g: Graph, x: Id)
    requires Single(g, x)
    ensures Punctual(g, x)
  {
  }

  lemma HarmMisstarts(g: Graph, t: Id, x: Id)
    requires GraphInv(g) && Punctual(g, x) && Enabled(g, Release(t)) && Harmful(g, Release(t), x)
    ensures CanMisstart(Next(g, Release(t)), x)
  {
    var g' := Next(g, Release(t));
    SourcedPart(g);
    hide CanRun, NeverHarmful, NeverPremature, After, GraphInv, Punctual, Next, Enabled, Early, Starts;
    if SomeOpen(g, g.tasks[x].listed) {
      var more := PrematureStartsEarly(g, t, x);
      EarlyIsTask(After(g', more), x);
      MisstartWitness(g', more, x);
    } else {
      if SomeOpen(g, g.calls[x].rest) { OpenInRestIsListed(g, x); }
      var more := UncountedStartsTwice(g, t, x);
      MisstartWitness(g', more, x);
    }
  }

  lemma SourcedPart(g: Graph)
    requires GraphInv(g)
    ensures Sourced(g)
  {
  }
}
