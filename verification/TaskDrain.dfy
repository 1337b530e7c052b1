/**
 The scheduler runs dry: without new tasks and calls, every run is bounded, and it can only stop
 in a quiet state, where everything scheduled is complete.
 */
module TaskDrain {
  import opened TaskGraph
  import opened GraphBooks
  import opened TaskOrder
  import opened TaskRuns

  function PhaseWeight(p: Phase): nat {
    match p
    case Idle => 5
    case Running => 4
    case Flagged => 3
    case Releasing(_, _) => 2
    case Handing(_) => 1
    case Done => 0
  }

  function TaskWeight(task: Task): nat {
    PhaseWeight(task.phase) + 3 * |Unprocessed(task)| + 2 * |Ready(task)|
  }

  function TaskSum(tasks: seq<Task>): nat {
    if tasks == [] then 0 else TaskWeight(tasks[0]) + TaskSum(tasks[1..])
  }

  function CallWeight(calls: map<Id, Call>, x: Id): nat {
    if x in calls then 5 * |calls[x].rest| + One(calls[x].uncounted) + 2 else 0
  }

  function CallSum(calls: map<Id, Call>, n: nat): nat {
    if n == 0 then 0 else CallWeight(calls, n - 1) + CallSum(calls, n - 1)
  }

  /** The steps still to be taken, at most. */
  function Remaining(g: Graph): nat {
    |g.queue| + TaskSum(g.tasks) + CallSum(g.calls, |g.tasks|)
  }

  lemma {:induction false} TaskSumPut(tasks: seq<Task>, i: nat, task: Task)
    requires i < |tasks|
    ensures TaskSum(tasks[i := task]) + TaskWeight(tasks[i]) == TaskSum(tasks) + TaskWeight(task)
  {
    hide TaskWeight;
    if i == 0 {
      assert tasks[i := task][1..] == tasks[1..];
    } else {
      assert tasks[i := task][1..] == tasks[1..][i - 1 := task];
      TaskSumPut(tasks[1..], i - 1, task);
    }
  }

  lemma {:induction false} CallSumChange(calls: map<Id, Call>, calls': map<Id, Call>, t: Id, n: nat)
    requires forall x: Id :: x != t ==> CallWeight(calls', x) == CallWeight(calls, x)
    ensures t < n ==> CallSum(calls', n) + CallWeight(calls, t) == CallSum(calls, n) + CallWeight(calls', t)
    ensures t >= n ==> CallSum(calls', n) == CallSum(calls, n)
  {
    hide CallWeight;
    if n > 0 { CallSumChange(calls, calls', t, n - 1); }
  }

  predicate NoNewWork(st: Step) {
    !st.Create? && !st.Begin?
  }

  lemma CallStepLowers(g: Graph, st: Step)
    requires AllShaped(g) && InRange(g) && Enabled(g, st) && (st.Count? || st.EndCall?)
    ensures Remaining(Next(g, st)) < Remaining(g)
  {
    var g' := Next(g, st);
    var t := st.task;
    assert HasTask(g, t);
    CallSumChange(g.calls, g'.calls, t, |g.tasks|);
    if st.Count? {
      TaskSumPut(g.tasks, t, g'.tasks[t]);
    }
    hide TaskSum, CallSum, AllShaped, InRange;
  }

  lemma RegisterLowers(g: Graph, t: Id)
    requires AllShaped(g) && InRange(g) && Enabled(g, Register(t))
    ensures Remaining(Next(g, Register(t))) < Remaining(g)
  {
    var g' := Next(g, Register(t));
    assert HasTask(g, t);
    CallSumChange(g.calls, g'.calls, t, |g.tasks|);
    CursorsFit(g);
    if Registers(g, Register(t)) {
      var d := g.calls[t].rest[0].value;
      var task := g.tasks[d].(dependents := g.tasks[d].dependents + [t]);
      TaskSumPut(g.tasks, d, task);
      assert Unprocessed(task) == Unprocessed(g.tasks[d]) + [t];
      assert Ready(task) == Ready(g.tasks[d]);
    }
    hide TaskSum, CallSum, AllShaped, InRange;
  }

  lemma ReleaseWeight(g: Graph, t: Id)
    requires Enabled(g, Release(t))
    ensures TaskWeight(Advanced(g, t)) < TaskWeight(LoweredGraph(g, t).tasks[t])
  {
    ReleaseShape(g, t);
    var x := Released(g, Release(t));
    assert Advanced(g, t).phase.Releasing? && LoweredGraph(g, t).tasks[t].phase.Releasing?;
    hide Unprocessed, Ready, Next;
    assert |g.tasks[t].phase.ready + (if g.tasks[x].counter == 1 then [x] else [])| <= |g.tasks[t].phase.ready| + 1;
  }

  lemma LoweredWeight(g: Graph, t: Id)
    requires Enabled(g, Release(t))
    ensures TaskSum(LoweredGraph(g, t).tasks) == TaskSum(g.tasks)
  {
    hide TaskSum;
    var x := Released(g, Release(t));
    TaskSumPut(g.tasks, x, g.tasks[x].(counter := Lowered(g.tasks[x].counter)));
  }

  lemma ReleaseLowers(g: Graph, t: Id)
    requires Enabled(g, Release(t))
    ensures Remaining(Next(g, Release(t))) < Remaining(g)
  {
    assert Next(g, Release(t)).calls == g.calls && Next(g, Release(t)).queue == g.queue;
    assert |Next(g, Release(t)).tasks| == |g.tasks|;
    ReleaseShape(g, t);
    hide Next, TaskSum, CallSum, TaskWeight, LoweredGraph, Advanced;
    ReleaseWeight(g, t);
    LoweredWeight(g, t);
    TaskSumPut(LoweredGraph(g, t).tasks, t, Advanced(g, t));
  }

  lemma DequeueLowers(g: Graph)
    requires Enabled(g, Dequeue)
    ensures Remaining(Next(g, Dequeue)) < Remaining(g)
  {
    var t := g.queue[0];
    if g.tasks[t].phase == Idle { TaskSumPut(g.tasks, t, g.tasks[t].(phase := Running)); }
    hide TaskSum, CallSum;
  }

  lemma FinishFrame(g: Graph, st: Step)
    requires Enabled(g, st) && IsFinish(st)
    ensures HasTask(g, st.task) && |Next(g, st).tasks| == |g.tasks|
    ensures Next(g, st).tasks == g.tasks[st.task := Next(g, st).tasks[st.task]]
    ensures Next(g, st).calls == g.calls
    ensures |Next(g, st).queue| == |g.queue| + One(st.Hand?)
  {
  }

  lemma FinishWeight(g: Graph, st: Step)
    requires Enabled(g, st) && IsFinish(st) && HasTask(g, st.task) && Shaped(g.tasks[st.task])
    requires |Next(g, st).tasks| == |g.tasks|
    ensures TaskWeight(Next(g, st).tasks[st.task]) + One(st.Hand?) < TaskWeight(g.tasks[st.task])
  {
  }

  lemma FinishLowers(g: Graph, st: Step)
    requires AllShaped(g) && Enabled(g, st) && IsFinish(st)
    ensures Remaining(Next(g, st)) < Remaining(g)
  {
    hide Next, Enabled, TaskSum, CallSum, TaskWeight, Shaped;
    FinishFrame(g, st);
    assert Shaped(g.tasks[st.task]);
    FinishWeight(g, st);
    TaskSumPut(g.tasks, st.task, Next(g, st).tasks[st.task]);
  }

  lemma StepLowers(g: Graph, st: Step)
    requires AllShaped(g) && InRange(g) && Enabled(g, st) && NoNewWork(st)
    ensures Remaining(Next(g, st)) < Remaining(g)
  {
    hide Remaining, Next, Enabled, AllShaped, InRange;
    match st
    case Register(t) => RegisterLowers(g, t);
    case Count(_) => CallStepLowers(g, st);
    case EndCall(_) => CallStepLowers(g, st);
    case Dequeue => DequeueLowers(g);
    case Release(t) => ReleaseLowers(g, t);
    case Complete(_) => FinishLowers(g, st);
    case StartRelease(_) => FinishLowers(g, st);
    case ClearList(_) => FinishLowers(g, st);
    case Hand(_) => FinishLowers(g, st);
    case Retire(_) => FinishLowers(g, st);
  }

  /** Without new tasks and calls, a run takes at most `Remaining` steps, calm or not. */
  lemma {:induction false} RunIsBounded(g: Graph, steps: seq<Step>)
    requires AllShaped(g) && InRange(g) && CanRun(g, steps)
    requires forall k :: 0 <= k < |steps| ==> NoNewWork(steps[k])
    ensures |steps| + Remaining(After(g, steps)) <= Remaining(g)
    decreases |steps|
  {
    hide Remaining, Next, Enabled, AllShaped, InRange;
    if steps != [] {
      StepLowers(g, steps[0]);
      StepTidy(g, steps[0]);
      assert forall k :: 0 <= k < |steps[1..]| ==> steps[1..][k] == steps[k + 1];
      RunIsBounded(Next(g, steps[0]), steps[1..]);
    }
  }

  function CallProgress(g: Graph, t: Id): Step
    requires t in g.calls
  {
    if g.calls[t].uncounted then Count(t) else if g.calls[t].rest == [] then EndCall(t) else Register(t)
  }

  function TaskProgress(task: Task, t: Id): Step {
    match task.phase
    case Idle => Retire(t)
    case Running => Complete(t)
    case Flagged => StartRelease(t)
    case Releasing(cursor, _) => if cursor < |task.dependents| then Release(t) else ClearList(t)
    case Handing(ready) => if ready == [] then Retire(t) else Hand(t)
    case Done => Retire(t)
  }

  /** Unless it is quiet, the scheduler has a calm step to take that needs no new work. */
  lemma NotQuietCanStep(g: Graph) returns (st: Step)
    requires AllShaped(g) && InRange(g) && !Quiet(g)
    ensures Enabled(g, st) && Calm(g, st) && NoNewWork(st)
  {
    if g.calls != map[] {
      var t :| t in g.calls;
      st := CallProgress(g, t);
      assert HasTask(g, t) && KnownTokens(g, g.calls[t].rest);
    } else if g.queue != [] {
      st := Dequeue;
      assert g.queue[0] in g.queue;
    } else {
      var t: Id :| HasTask(g, t) && !g.tasks[t].phase.Idle? && !g.tasks[t].phase.Done?;
      assert Shaped(g.tasks[t]) && Names(g, g.tasks[t].dependents);
      st := TaskProgress(g.tasks[t], t);
      if st.Release? { assert g.tasks[t].dependents[g.tasks[t].phase.cursor] in g.tasks[t].dependents; }
    }
  }

  /**
   What `wait_for_all` relies on: once no calm step is left but creating and scheduling tasks,
   every scheduled task is complete, if and only if no call of the run lost a start.
   */
  lemma ExhaustedMeansComplete(steps: seq<Step>)
    requires CanRun(EmptyGraph, steps) && GroundedRun(EmptyGraph, steps)
    requires forall st :: Enabled(After(EmptyGraph, steps), st) && NoNewWork(st) ==>
               !Calm(After(EmptyGraph, steps), st)
    ensures AllComplete(After(EmptyGraph, steps)) <==> !LosesAny(EmptyGraph, steps)
  {
    hide CanRun, GroundedRun, After, Quiet, AllShaped, AllCounted, InRange, Enabled, Calm, AllComplete, LosesAny;
    var g := After(EmptyGraph, steps);
    EmptyGraphInv();
    RunKeepsInv(EmptyGraph, steps);
    if !Quiet(g) {
      var st := NotQuietCanStep(g);
      assert false;
    }
    StrandedIff(steps);
  }
}
