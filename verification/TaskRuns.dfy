/**
 Whole runs of the scheduler from the empty graph.  The guards of `TaskStarts` say exactly which
 runs start every task once, in order, and which leave one behind; calm runs, in which no
 dependency is released during the call that lists it, meet all of them.
 */
module TaskRuns {
  import opened Options
  import opened TaskGraph
  import opened GraphBooks
  import opened TaskOrder
  import opened TaskStarts

  predicate CanRun(g: Graph, steps: seq<Step>)
    decreases |steps|
  {
    steps == [] || (Enabled(g, steps[0]) && CanRun(Next(g, steps[0]), steps[1..]))
  }

  function After(g: Graph, steps: seq<Step>): Graph
    requires CanRun(g, steps)
    decreases |steps|
  {
    if steps == [] then g else After(Next(g, steps[0]), steps[1..])
  }

  predicate NeverHarmful(g: Graph, steps: seq<Step>, x: Id)
    requires CanRun(g, steps)
    decreases |steps|
  {
    steps == [] || (!Harmful(g, steps[0], x) && NeverHarmful(Next(g, steps[0]), steps[1..], x))
  }

  predicate NeverPremature(g: Graph, steps: seq<Step>, x: Id)
    requires CanRun(g, steps)
    decreases |steps|
  {
    steps == [] || (!Premature(g, steps[0], x) && NeverPremature(Next(g, steps[0]), steps[1..], x))
  }

  /** Some call of `schedule` in the run ends with its task's start lost. */
  ghost predicate LosesSome(g: Graph, steps: seq<Step>, x: Id)
    requires CanRun(g, steps)
    decreases |steps|
  {
    steps != [] && (LosesStart(g, steps[0], x) || LosesSome(Next(g, steps[0]), steps[1..], x))
  }

  lemma {:induction false} RunKeepsInv(g: Graph, steps: seq<Step>)
    requires GraphInv(g) && CanRun(g, steps)
    ensures GraphInv(After(g, steps))
    decreases |steps|
  {
    hide GraphInv, Next, Enabled;
    if steps != [] {
      StepKeepsInv(g, steps[0]);
      RunKeepsInv(Next(g, steps[0]), steps[1..]);
    }
  }

  /** In every reachable state the counter is the number of unprocessed registrations modulo 2^32. */
  lemma CounterIsOwed(steps: seq<Step>, x: Id)
    requires CanRun(EmptyGraph, steps) && HasTask(After(EmptyGraph, steps), x)
    ensures var g := After(EmptyGraph, steps);
            (g.tasks[x].counter + Uncounted(g, x)) % WORD == Waiting(g.tasks)[x] <= |g.tasks[x].listed| < WORD
  {
    hide CanRun, After, GraphInv, Waiting, Uncounted;
    EmptyGraphInv();
    RunKeepsInv(EmptyGraph, steps);
    CounterOf(After(EmptyGraph, steps), x);
  }

  lemma CounterOf(g: Graph, x: Id)
    requires GraphInv(g) && HasTask(g, x)
    ensures (g.tasks[x].counter + Uncounted(g, x)) % WORD == Waiting(g.tasks)[x] <= |g.tasks[x].listed| < WORD
  {
    hide Waiting, Starts, Uncounted, Gated, Sourced, Logged, InRange;
    assert Counted(g, x);
    OwedMeansScheduled(g, x);
  }

  /** A release makes its task ready exactly when it processes the last counted registration. */
  lemma LastRegistrationStarts(steps: seq<Step>, t: Id)
    requires CanRun(EmptyGraph, steps) && Enabled(After(EmptyGraph, steps), Release(t))
    ensures var g := After(EmptyGraph, steps);
            var x := Released(g, Release(t));
            Readied(Next(g, Release(t)).tasks)[x] == Readied(g.tasks)[x] + 1 <==>
            Waiting(g.tasks)[x] == 1 + Uncounted(g, x)
  {
    EmptyGraphInv();
    RunKeepsInv(EmptyGraph, steps);
    var g := After(EmptyGraph, steps);
    var x := Released(g, Release(t));
    hide CanRun, After, Next, Waiting, Readied, AllShaped, InRange, AllCounted, Gated, Sourced, Logged;
    ReleasedIsTask(g, t);
    ReadiedStep(g, Release(t), x);
    HitOwes(g, Release(t), x);
  }

  lemma ReleasedIsTask(g: Graph, t: Id)
    requires Enabled(g, Release(t))
    ensures HasTask(g, Released(g, Release(t)))
  {
  }

  // ---------------------------------------------------------------- order

  lemma {:induction false} RunPunctual(g: Graph, steps: seq<Step>, x: Id)
    requires GraphInv(g) && Punctual(g, x) && CanRun(g, steps) && NeverPremature(g, steps, x)
    ensures Punctual(After(g, steps), x)
    decreases |steps|
  {
    hide GraphInv, Punctual, Next, Enabled, Premature;
    if steps != [] {
      StepKeepsInv(g, steps[0]);
      PunctualStep(g, steps[0], x);
      RunPunctual(Next(g, steps[0]), steps[1..], x);
    }
  }

  lemma PunctualIsNotEarly(g: Graph, x: Id)
    requires Punctual(g, x)
    ensures !Early(g, x)
  {
    hide Readied, SomeOpen;
  }

  /** Dependency order: unless a release of `x` was premature, a started `x` finds all it lists completed. */
  lemma DependenciesCompleteFirst(steps: seq<Step>, x: Id, d: Id)
    requires CanRun(EmptyGraph, steps) && NeverPremature(EmptyGraph, steps, x)
    requires var g := After(EmptyGraph, steps);
             HasTask(g, x) && !g.tasks[x].phase.Idle? && Lists(g, x, d)
    ensures HasTask(After(EmptyGraph, steps), d) && After(EmptyGraph, steps).tasks[d].completed
  {
    EmptyGraphInv();
    RunKeepsInv(EmptyGraph, steps);
    RunPunctual(EmptyGraph, steps, x);
    var g := After(EmptyGraph, steps);
    hide CanRun, NeverPremature, After, AllShaped, AllCounted, Gated, Sourced, Logged, Readied;
    ListedIsTask(g, x, d);
    PunctualIsNotEarly(g, x);
    assert !IsOpen(g, Some(d));
  }

  /** Every resumption of `x` comes after one of each task it lists. */
  ghost predicate InOrder(g: Graph, x: Id) {
    forall i, d: Id :: 0 <= i < |g.started| && g.started[i] == x && HasTask(g, x) && Lists(g, x, d) ==>
      d in g.started[..i]
  }

  lemma InOrderStep(g: Graph, st: Step, x: Id)
    requires GraphInv(g) && Enabled(g, st) && Punctual(g, x) && InOrder(g, x)
    ensures InOrder(Next(g, st), x)
  {
    var g' := Next(g, st);
    StartedLog(g, st);
    hide Next, AllShaped, AllCounted, Gated, Sourced, Logged, InRange, Readied, Punctual;
    forall i, d: Id | 0 <= i < |g'.started| && g'.started[i] == x && HasTask(g', x) && Lists(g', x, d)
      ensures d in g'.started[..i]
    {
      StartedEarlier(g, st, x, d, i);
    }
  }

  lemma StartedEarlier(g: Graph, st: Step, x: Id, d: Id, i: nat)
    requires GraphInv(g) && Enabled(g, st) && Punctual(g, x) && InOrder(g, x)
    requires var g' := Next(g, st);
             i < |g'.started| && g'.started[i] == x && HasTask(g', x) && Lists(g', x, d)
    ensures d in Next(g, st).started[..i]
  {
    var g' := Next(g, st);
    StartedLog(g, st);
    hide Next, AllShaped, AllCounted, Gated, Sourced, Logged, InRange, Readied;
    if i < |g.started| {
      assert g.started[i] == x && g'.started[..i] == g.started[..i];
      assert x in g.started;
      StartedIsScheduled(g, x);
      TaskStep(g, st, x);
      BeginsUnscheduled(g, st);
      assert Lists(g, x, d);
    } else {
      assert g'.started[..i] == g.started;
      TaskStep(g, st, x);
      DequeuedDependency(g, x, d);
    }
  }

  lemma StartedIsScheduled(g: Graph, x: Id)
    requires GraphInv(g) && x in g.started
    ensures HasTask(g, x) && g.tasks[x].scheduled
  {
    StartedBefore(g, x);
    assert Counted(g, x);
    hide Readied, Agrees, Owed;
  }

  lemma DequeuedDependency(g: Graph, x: Id, d: Id)
    requires GraphInv(g) && Enabled(g, Dequeue) && g.queue[0] == x && Punctual(g, x) && Lists(g, x, d)
    ensures d in g.started
  {
    hide Readied, AllCounted, Gated, Sourced;
    assert x in g.queue && Starts(g, x) > 0;
    ListedIsTask(g, x, d);
    assert !IsOpen(g, Some(d));
    CompletedIsNotIdle(g, d);
    StartedBefore(g, d);
  }

  lemma {:induction false} RunInOrder(g: Graph, steps: seq<Step>, x: Id)
    requires GraphInv(g) && Punctual(g, x) && InOrder(g, x) && CanRun(g, steps) && NeverPremature(g, steps, x)
    ensures InOrder(After(g, steps), x)
    decreases |steps|
  {
    hide GraphInv, Punctual, InOrder, Next, Enabled, Premature;
    if steps != [] {
      StepKeepsInv(g, steps[0]);
      PunctualStep(g, steps[0], x);
      InOrderStep(g, steps[0], x);
      RunInOrder(Next(g, steps[0]), steps[1..], x);
    }
  }

  /** Unless a release of it was premature, a task starts after everything it lists. */
  lemma StartOrderExtendsDependencies(steps: seq<Step>, i: nat, d: Id)
    requires CanRun(EmptyGraph, steps)
    requires var g := After(EmptyGraph, steps);
             i < |g.started| && HasTask(g, g.started[i]) && Lists(g, g.started[i], d)
             && NeverPremature(EmptyGraph, steps, g.started[i])
    ensures exists j :: 0 <= j < i && After(EmptyGraph, steps).started[j] == d
  {
    var g := After(EmptyGraph, steps);
    EmptyGraphInv();
    RunInOrder(EmptyGraph, steps, g.started[i]);
    hide CanRun, NeverPremature, After;
    assert d in g.started[..i];
  }

  // ---------------------------------------------------------------- one start each

  lemma {:induction false} RunSingle(g: Graph, steps: seq<Step>, x: Id)
    requires GraphInv(g) && Single(g, x) && CanRun(g, steps) && NeverHarmful(g, steps, x)
    ensures Single(After(g, steps), x)
    decreases |steps|
  {
    hide GraphInv, Single, Next, Enabled, Harmful;
    if steps != [] {
      StepKeepsInv(g, steps[0]);
      SingleStep(g, steps[0], x);
      RunSingle(Next(g, steps[0]), steps[1..], x);
    }
  }

  /** Unless a release of it did harm, a task is resumed at most once and has at most one start job. */
  lemma StartedOnce(steps: seq<Step>, x: Id)
    requires CanRun(EmptyGraph, steps) && NeverHarmful(EmptyGraph, steps, x)
    requires HasTask(After(EmptyGraph, steps), x)
    ensures var g := After(EmptyGraph, steps);
            && (forall i, j :: 0 <= i < j < |g.started| && g.started[i] == x ==> g.started[j] != x)
            && multiset(g.queue)[x] + Readied(g.tasks)[x] + One(x in g.started) <= 1
            && !Early(g, x)
  {
    EmptyGraphInv();
    RunKeepsInv(EmptyGraph, steps);
    RunSingle(EmptyGraph, steps, x);
    var g := After(EmptyGraph, steps);
    hide CanRun, NeverHarmful, After, Books, Gated, Sourced, Logged, Readied, Settled, SomeOpen;
    StartedBefore(g, x);
    PunctualIsNotEarly(g, x);
    forall i, j | 0 <= i < j < |g.started| && g.started[i] == x ensures g.started[j] != x {
      if g.started[j] == x { TwoInSeq(g.started, i, j); }
    }
  }

  lemma TwoInSeq(s: seq<Id>, i: nat, j: nat)
    requires i < j < |s| && s[i] == s[j]
    ensures multiset(s)[s[i]] >= 2
  {
    assert s == s[..i] + [s[i]] + s[i + 1..j] + [s[j]] + s[j + 1..];
  }

  // ---------------------------------------------------------------- nothing is left behind

  /** Tokens are handed out by `schedule`: a dependency was scheduled before. */
  predicate Grounded(g: Graph, st: Step)
    requires Enabled(g, st)
  {
    st.Begin? ==> forall d: Option<Id> :: d in st.dependencies && d.Some? ==> g.tasks[d.value].scheduled
  }

  predicate GroundedRun(g: Graph, steps: seq<Step>)
    requires CanRun(g, steps)
    decreases |steps|
  {
    steps == [] || (Grounded(g, steps[0]) && GroundedRun(Next(g, steps[0]), steps[1..]))
  }

  /** Calls in order: each lists only tasks whose call came earlier. */
  ghost predicate Layered(g: Graph) {
    && (forall x: Id :: x in g.order <==> HasTask(g, x) && g.tasks[x].scheduled)
    && (forall i, d: Id :: 0 <= i < |g.order| && HasTask(g, g.order[i]) && Lists(g, g.order[i], d) ==>
          d in g.order[..i])
  }

  lemma ScheduledStep(g: Graph, st: Step, x: Id)
    requires Enabled(g, st) && HasTask(g, x)
    ensures Next(g, st).tasks[x].scheduled <==> g.tasks[x].scheduled || (st.Begin? && st.task == x)
    ensures Next(g, st).order == if st.Begin? then g.order + [st.task] else g.order
  {
  }

  lemma BeginLayered(g: Graph, g': Graph, t: Id)
    requires Layered(g) && HasTask(g, t) && t !in g.order && g'.order == g.order + [t] && |g'.tasks| == |g.tasks|
    requires forall x: Id :: HasTask(g, x) ==>
               && (g'.tasks[x].scheduled <==> g.tasks[x].scheduled || x == t)
               && (x != t ==> g'.tasks[x].listed == g.tasks[x].listed)
    requires forall d: Id :: Some(d) in g'.tasks[t].listed ==> d in g.order
    ensures Layered(g')
  {
    forall i | 0 <= i < |g.order| ensures g'.order[..i] == g.order[..i] && g'.order[i] == g.order[i] {}
    assert g'.order[..|g.order|] == g.order;
    assert forall i :: 0 <= i < |g.order| ==> g.order[i] in g.order;
  }

  lemma SameLayered(g: Graph, g': Graph)
    requires Layered(g) && g'.order == g.order && |g.tasks| <= |g'.tasks|
    requires forall x: Id :: HasTask(g, x) ==>
               g'.tasks[x].scheduled == g.tasks[x].scheduled && g'.tasks[x].listed == g.tasks[x].listed
    requires forall x: Id :: |g.tasks| <= x < |g'.tasks| ==> !g'.tasks[x].scheduled
    ensures Layered(g')
  {
    assert forall i :: 0 <= i < |g.order| ==> g.order[i] in g.order;
  }

  lemma StepLayered(g: Graph, st: Step)
    requires Layered(g) && Enabled(g, st) && Grounded(g, st)
    ensures Layered(Next(g, st))
  {
    var g' := Next(g, st);
    assert st.Begin? ==> |g'.tasks| == |g.tasks| && g'.tasks[st.task].listed == st.dependencies;
    assert g'.order == if st.Begin? then g.order + [st.task] else g.order;
    TableGrows(g, st);
    hide Next, Layered;
    forall x: Id | HasTask(g, x)
      ensures g'.tasks[x].scheduled <==> g.tasks[x].scheduled || (st.Begin? && st.task == x)
      ensures !(st.Begin? && st.task == x) ==> g'.tasks[x].listed == g.tasks[x].listed
    {
      ScheduledStep(g, st, x);
      TaskStep(g, st, x);
    }
    forall x: Id | |g.tasks| <= x < |g'.tasks| ensures !g'.tasks[x].scheduled { NewTaskStep(g, st, x); }
    if st.Begin? {
      ScheduledInOrder(g, st.task);
      forall d: Id | Some(d) in st.dependencies ensures d in g.order {
        assert Some(d).Some? && g.tasks[Some(d).value].scheduled;
        ScheduledInOrder(g, d);
      }
      BeginLayered(g, g', st.task);
    } else {
      SameLayered(g, g');
    }
  }

  lemma ScheduledInOrder(g: Graph, x: Id)
    requires Layered(g) && HasTask(g, x)
    ensures x in g.order <==> g.tasks[x].scheduled
  {
  }

  lemma {:induction false} RunLayered(g: Graph, steps: seq<Step>)
    requires Layered(g) && CanRun(g, steps) && GroundedRun(g, steps)
    ensures Layered(After(g, steps))
    decreases |steps|
  {
    hide Layered, Next, Enabled, Grounded;
    if steps != [] {
      StepLayered(g, steps[0]);
      RunLayered(Next(g, steps[0]), steps[1..]);
    }
  }

  /** Empty queue, no call of `schedule` under way, nobody running or finishing. */
  ghost predicate Quiet(g: Graph) {
    && g.queue == []
    && g.calls == map[]
    && (forall t: Id :: HasTask(g, t) ==> g.tasks[t].phase.Idle? || g.tasks[t].phase.Done?)
  }

  /** In a quiet state, what was scheduled is complete, unless some start was lost. */
  lemma {:induction false} QuietMeansComplete(g: Graph, i: nat)
    requires GraphInv(g) && Layered(g) && Quiet(g) && i < |g.order|
    requires forall x: Id :: !Lost(g, x)
    ensures HasTask(g, g.order[i]) && g.tasks[g.order[i]].completed
    decreases i
  {
    var x := g.order[i];
    assert x in g.order;
    hide Lost;
    if g.tasks[x].phase.Idle? {
      var d := IdleHasRegistration(g, x);
      hide GraphInv, Unprocessed, Quiet;
      assert d in g.order[..i];
      var j :| 0 <= j < i && g.order[..i][j] == d;
      QuietMeansComplete(g, j);
      assert false;
    }
    assert Shaped(g.tasks[x]);
  }

  lemma IdleHasRegistration(g: Graph, x: Id) returns (d: Id)
    requires GraphInv(g) && Quiet(g) && HasTask(g, x) && g.tasks[x].scheduled && g.tasks[x].phase.Idle?
    requires !Lost(g, x)
    ensures HasTask(g, d) && !g.tasks[d].completed && HasTask(g, x) && Lists(g, x, d)
  {
    ReadiedFrom(g.tasks, x);
    WaitingFrom(g.tasks, x);
    hide Readied, Waiting, AllCounted, InRange, Gated, Logged;
    assert forall i :: 0 <= i < |g.tasks| ==> HasTask(g, i) && Ready(g.tasks[i]) == [];
    d :| HasTask(g, d) && x in Unprocessed(g.tasks[d]);
    assert Shaped(g.tasks[d]) && Source(g, d, x);
  }

  lemma LostIsIncomplete(g: Graph, x: Id)
    requires GraphInv(g) && Lost(g, x)
    ensures HasTask(g, x) && g.tasks[x].scheduled && !g.tasks[x].completed
  {
    LostIsIdle(g, x);
  }

  /** A task is lost exactly when some call of the run lost its start. */
  lemma {:induction false} RunLost(g: Graph, steps: seq<Step>, x: Id)
    requires GraphInv(g) && CanRun(g, steps)
    ensures Lost(After(g, steps), x) <==> Lost(g, x) || LosesSome(g, steps, x)
    decreases |steps|
  {
    hide GraphInv, Lost, LosesStart, Next, Enabled;
    if steps != [] {
      StepKeepsInv(g, steps[0]);
      LostStep(g, steps[0], x);
      RunLost(Next(g, steps[0]), steps[1..], x);
    }
  }

  /**
   A start is lost for good: once the guarded end of a call is taken, the task is never resumed in
   any continuation; and nothing else makes a scheduled task wait for nothing.
   */
  lemma LostForGood(steps: seq<Step>, more: seq<Step>, x: Id)
    requires CanRun(EmptyGraph, steps) && CanRun(After(EmptyGraph, steps), more)
    requires LosesSome(EmptyGraph, steps, x)
    ensures var g := After(After(EmptyGraph, steps), more);
            HasTask(g, x) && g.tasks[x].scheduled && !g.tasks[x].completed && x !in g.started
  {
    EmptyGraphInv();
    RunKeepsInv(EmptyGraph, steps);
    RunLost(EmptyGraph, steps, x);
    RunKeepsInv(After(EmptyGraph, steps), more);
    RunLost(After(EmptyGraph, steps), more, x);
    var g := After(After(EmptyGraph, steps), more);
    hide CanRun, After, LosesSome;
    LostIsIdle(g, x);
    StartedBefore(g, x);
  }

  ghost predicate AllComplete(g: Graph) {
    forall x: Id :: HasTask(g, x) && g.tasks[x].scheduled ==> g.tasks[x].completed
  }

  ghost predicate NoneLost(g: Graph) {
    forall x: Id :: !Lost(g, x)
  }

  lemma QuietIff(g: Graph)
    requires GraphInv(g) && Layered(g) && Quiet(g)
    ensures AllComplete(g) <==> NoneLost(g)
  {
    hide GraphInv, Quiet, Lost;
    if NoneLost(g) {
      forall x: Id | HasTask(g, x) && g.tasks[x].scheduled ensures g.tasks[x].completed {
        ScheduledInOrder(g, x);
        var i :| 0 <= i < |g.order| && g.order[i] == x;
        QuietMeansComplete(g, i);
      }
    } else {
      var x: Id :| Lost(g, x);
      LostIsIncomplete(g, x);
    }
  }

  /** Somewhere in the run a call loses the start of its task. */
  ghost predicate LosesAny(g: Graph, steps: seq<Step>)
    requires CanRun(g, steps)
  {
    exists x: Id :: LosesSome(g, steps, x)
  }

  lemma LostIffLoses(steps: seq<Step>)
    requires CanRun(EmptyGraph, steps)
    ensures NoneLost(After(EmptyGraph, steps)) <==> !LosesAny(EmptyGraph, steps)
  {
    hide CanRun, After, GraphInv, Lost, LosesSome;
    EmptyGraphInv();
    forall x: Id ensures Lost(After(EmptyGraph, steps), x) <==> LosesSome(EmptyGraph, steps, x) {
      NothingLostYet(x);
      RunLost(EmptyGraph, steps, x);
    }
  }

  /**
   Stranded tasks, exactly: when every token came from an already scheduled task, a quiet scheduler
   has completed all scheduled tasks if and only if no call of the run lost a start.
   */
  lemma StrandedIff(steps: seq<Step>)
    requires CanRun(EmptyGraph, steps) && GroundedRun(EmptyGraph, steps)
    requires Quiet(After(EmptyGraph, steps))
    ensures AllComplete(After(EmptyGraph, steps)) <==> !LosesAny(EmptyGraph, steps)
  {
    hide CanRun, GroundedRun, After, GraphInv, Quiet, LosesAny, NoneLost, AllComplete, Layered;
    EmptyGraphInv();
    RunKeepsInv(EmptyGraph, steps);
    EmptyLayered();
    RunLayered(EmptyGraph, steps);
    LostIffLoses(steps);
    QuietIff(After(EmptyGraph, steps));
  }

  lemma EmptyLayered()
    ensures Layered(EmptyGraph)
  {
  }

  lemma NothingLostYet(x: Id)
    ensures !Lost(EmptyGraph, x)
  {
  }

  // ---------------------------------------------------------------- calm runs

  /** No task is released while the call of `schedule` that lists it is still under way. */
  predicate CalmRun(g: Graph, steps: seq<Step>)
    requires CanRun(g, steps)
    decreases |steps|
  {
    steps == [] || (Calm(g, steps[0]) && CalmRun(Next(g, steps[0]), steps[1..]))
  }

  /** In a calm run nothing a call has registered is processed before it ends. */
  ghost predicate Untouched(g: Graph, x: Id) {
    x in g.calls ==> Owed(g, x) == g.calls[x].pending + Uncounted(g, x)
  }

  lemma UntouchedStep(g: Graph, st: Step, x: Id)
    requires GraphInv(g) && Enabled(g, st) && Calm(g, st) && Untouched(g, x)
    ensures Untouched(Next(g, st), x)
  {
    hide Next, Owed, AllShaped, Gated, Sourced, Logged, InRange;
    OwedStep(g, st, x);
    CallStep(g, st, x);
    assert Counted(g, x) && CallFits(g, x);
    if st.Begin? { BegunOwesNothing(g, st.task); }
    if x in g.calls && HasTask(g, x) { OwedMeansScheduled(g, x); }
  }

  lemma BegunOwesNothing(g: Graph, x: Id)
    requires Books(g) && HasTask(g, x) && !g.tasks[x].scheduled
    ensures Owed(g, x) == 0
  {
    hide Owed, AllCounted;
    assert AllCounted(g);
    CountedOf(g, x);
    OwedMeansScheduled(g, x);
  }

  lemma CountedOf(g: Graph, x: Id)
    requires AllCounted(g)
    ensures Counted(g, x) && CallFits(g, x)
  {
  }

  /** Calm steps do no harm, start nobody early and lose no start. */
  lemma CalmIsHarmless(g: Graph, st: Step, x: Id)
    requires GraphInv(g) && Enabled(g, st) && Calm(g, st) && Untouched(g, x)
    ensures !Harmful(g, st, x) && !Premature(g, st, x) && !LosesStart(g, st, x)
  {
    hide Owed, Starts, Books, Gated, Sourced, Logged;
    if HitsZero(g, st, x) { PrematureGuard(g, st, x); }
  }

  lemma {:induction false} CalmRunIsHarmless(g: Graph, steps: seq<Step>, x: Id)
    requires GraphInv(g) && Untouched(g, x) && CanRun(g, steps) && CalmRun(g, steps)
    ensures NeverHarmful(g, steps, x) && NeverPremature(g, steps, x) && !LosesSome(g, steps, x)
    ensures Untouched(After(g, steps), x)
    decreases |steps|
  {
    hide GraphInv, Untouched, Next, Enabled, Calm, Harmful, Premature, LosesStart;
    if steps != [] {
      StepKeepsInv(g, steps[0]);
      CalmIsHarmless(g, steps[0], x);
      UntouchedStep(g, steps[0], x);
      CalmRunIsHarmless(Next(g, steps[0]), steps[1..], x);
    }
  }

  /** The corollary for calm runs: order, one start each, and nothing stranded. */
  lemma CalmRunsAreSound(steps: seq<Step>, x: Id)
    requires CanRun(EmptyGraph, steps) && CalmRun(EmptyGraph, steps)
    requires HasTask(After(EmptyGraph, steps), x)
    ensures var g := After(EmptyGraph, steps);
            && !Early(g, x)
            && (forall i, j :: 0 <= i < j < |g.started| && g.started[i] == x ==> g.started[j] != x)
            && (Quiet(g) && GroundedRun(EmptyGraph, steps) && g.tasks[x].scheduled ==> g.tasks[x].completed)
  {
    EmptyGraphInv();
    forall y: Id ensures !LosesSome(EmptyGraph, steps, y) { CalmRunIsHarmless(EmptyGraph, steps, y); }
    CalmRunIsHarmless(EmptyGraph, steps, x);
    StartedOnce(steps, x);
    hide CanRun, CalmRun, NeverHarmful, NeverPremature, After, LosesSome, Early, Quiet, GroundedRun, Readied;
    if Quiet(After(EmptyGraph, steps)) && GroundedRun(EmptyGraph, steps) {
      StrandedIff(steps);
      assert !LosesAny(EmptyGraph, steps);
    }
  }

  /** What a calm step keeps of every task. */
  ghost predicate CalmInv(g: Graph) {
    GraphInv(g) && forall x: Id :: Single(g, x) && !Lost(g, x) && Untouched(g, x)
  }

  lemma CalmParts(g: Graph)
    requires CalmInv(g)
    ensures GraphInv(g) && NoneLost(g)
    ensures forall x: Id :: Single(g, x)
  {
  }

  lemma EmptyCalm()
    ensures CalmInv(EmptyGraph)
  {
    EmptyGraphInv();
  }

  lemma StepKeepsCalm(g: Graph, st: Step)
    requires CalmInv(g) && Enabled(g, st) && Calm(g, st)
    ensures CalmInv(Next(g, st))
  {
    hide GraphInv, Single, Lost, Untouched, Next, Enabled, Calm, Harmful, Premature, LosesStart;
    StepKeepsInv(g, st);
    forall x: Id ensures Single(Next(g, st), x) && !Lost(Next(g, st), x) && Untouched(Next(g, st), x) {
      CalmIsHarmless(g, st, x);
      SingleStep(g, st, x);
      LostStep(g, st, x);
      UntouchedStep(g, st, x);
    }
  }
}
