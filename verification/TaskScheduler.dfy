/**
 The scheduler and the frame scheduler as objects.  Their methods are the undisturbed forms of
 the operations: each runs its whole series of steps, and says what that amounts to.
 */
module TaskScheduler {
  import opened Options
  import opened TaskGraph
  import opened GraphBooks
  import opened TaskOrder
  import opened TaskStarts
  import opened TaskRuns
  import opened TaskDrain

  /** Tokens of tasks that have not completed, duplicates included. */
  function OpenCount(g: Graph, tokens: seq<Option<Id>>): (k: nat)
    ensures k <= |tokens|
  {
    if tokens == [] then 0
    else OpenCount(g, tokens[..|tokens| - 1]) + One(IsOpen(g, tokens[|tokens| - 1]))
  }

  function Mentions(tokens: seq<Option<Id>>, d: Id): nat {
    if tokens == [] then 0
    else Mentions(tokens[..|tokens| - 1], d) + One(tokens[|tokens| - 1] == Some(d))
  }

  function Copies(t: Id, k: nat): seq<Id> {
    seq(k, _ => t)
  }

  /** Registrations `schedule(t, tokens)` leaves in the dependent list of `d`. */
  function Registrations(g: Graph, t: Id, tokens: seq<Option<Id>>, d: Id): seq<Id>
    requires HasTask(g, d)
  {
    if g.tasks[d].completed then [] else Copies(t, Mentions(tokens, d))
  }

  /** What `schedule` of `t` has done to the task `x` after dealing with the tokens `done`. */
  ghost predicate RegisteredWith(before: Graph, g: Graph, t: Id, done: seq<Option<Id>>, x: Id)
    requires HasTask(before, x) && HasTask(g, x)
  {
    && g.tasks[x].dependents == before.tasks[x].dependents + Registrations(before, t, done, x)
    && g.tasks[x].phase == before.tasks[x].phase && g.tasks[x].completed == before.tasks[x].completed
    && (x != t ==>
          && g.tasks[x].counter == before.tasks[x].counter
          && g.tasks[x].scheduled == before.tasks[x].scheduled
          && g.tasks[x].listed == before.tasks[x].listed)
  }

  /** `schedule` has dealt with `done`; `rest` is still to come. */
  ghost predicate Halfway(before: Graph, g: Graph, t: Id, done: seq<Option<Id>>, rest: seq<Option<Id>>) {
    && HasTask(before, t) && |g.tasks| == |before.tasks|
    && g.calls == map[t := Call(rest, false, g.tasks[t].counter)]
    && g.tasks[t].counter == OpenCount(before, done)
    && g.queue == before.queue && g.started == before.started && g.order == before.order + [t]
    && (forall x: Id :: HasTask(before, x) ==> RegisteredWith(before, g, t, done, x))
    && g.tasks[t].scheduled && g.tasks[t].listed == done + rest
  }

  lemma OneMoreCopy(t: Id, k: nat)
    ensures Copies(t, k + 1) == Copies(t, k) + [t]
  {
  }

  lemma SplitMentions(done: seq<Option<Id>>, next: Option<Id>, d: Id)
    ensures Mentions(done + [next], d) == Mentions(done, d) + One(next == Some(d))
  {
    assert (done + [next])[..|done|] == done;
  }

  lemma SplitOpen(g: Graph, done: seq<Option<Id>>, next: Option<Id>)
    ensures OpenCount(g, done + [next]) == OpenCount(g, done) + One(IsOpen(g, next))
  {
    assert (done + [next])[..|done|] == done;
  }

  lemma MoreRegistrations(g: Graph, t: Id, done: seq<Option<Id>>, next: Option<Id>, d: Id)
    requires HasTask(g, d)
    ensures Registrations(g, t, done + [next], d)
         == Registrations(g, t, done, d) + if IsOpen(g, next) && next == Some(d) then [t] else []
  {
    SplitMentions(done, next, d);
    OneMoreCopy(t, Mentions(done, d));
  }

  /** Registering with one token and counting it. */
  function Served(g: Graph, t: Id): Graph
    requires Enabled(g, Register(t)) && HasTask(g, t)
  {
    var registered := Next(g, Register(t));
    if registered.calls[t].uncounted then Next(registered, Count(t)) else registered
  }

  lemma ServedHalfway(before: Graph, g: Graph, t: Id, done: seq<Option<Id>>, rest: seq<Option<Id>>)
    requires rest != [] && Halfway(before, g, t, done, rest) && |done| + |rest| < WORD
    requires rest[0].Some? ==> rest[0].value < |g.tasks|
    ensures Enabled(g, Register(t)) && HasTask(g, t)
    ensures Halfway(before, Served(g, t), t, done + [rest[0]], rest[1..])
  {
    assert RegisteredWith(before, g, t, done, t);
    ServedCalls(g, t, rest, g.tasks[t].counter);
    ServedTask(g, t, t);
    hide Served, RegisteredWith, OpenCount, IsOpen;
    SplitOpen(before, done, rest[0]);
    SameOpen(before, g, t, done, rest[0]);
    assert done + [rest[0]] + rest[1..] == done + rest;
    forall x: Id | HasTask(before, x)
      ensures HasTask(Served(g, t), x) && RegisteredWith(before, Served(g, t), t, done + [rest[0]], x)
    {
      ServedRegistered(before, g, t, done, rest, x);
    }
  }

  lemma SameOpen(before: Graph, g: Graph, t: Id, done: seq<Option<Id>>, next: Option<Id>)
    requires |g.tasks| == |before.tasks|
    requires forall x: Id :: HasTask(before, x) ==> RegisteredWith(before, g, t, done, x)
    ensures IsOpen(g, next) <==> IsOpen(before, next)
  {
    if next.Some? && HasTask(before, next.value) { assert RegisteredWith(before, g, t, done, next.value); }
  }

  lemma ServedRegistered(
    before: Graph, g: Graph, t: Id, done: seq<Option<Id>>, rest: seq<Option<Id>>, x: Id)
    requires |g.tasks| == |before.tasks| && HasTask(g, t) && HasTask(g, x)
    requires forall y: Id :: HasTask(before, y) ==> RegisteredWith(before, g, t, done, y)
    requires Enabled(g, Register(t)) && rest != [] && g.calls[t].rest == rest
    ensures HasTask(Served(g, t), x) && RegisteredWith(before, Served(g, t), t, done + [rest[0]], x)
  {
    hide Served, Registrations, IsOpen;
    assert RegisteredWith(before, g, t, done, x);
    SameOpen(before, g, t, done, rest[0]);
    MoreRegistrations(before, t, done, rest[0], x);
    ServedTask(g, t, x);
  }

  lemma ServedCalls(g: Graph, t: Id, rest: seq<Option<Id>>, k: Counter)
    requires rest != [] && g.calls == map[t := Call(rest, false, k)] && HasTask(g, t) && k + 1 < WORD
    requires rest[0].Some? ==> rest[0].value < |g.tasks|
    requires g.tasks[t].counter == k
    ensures Served(g, t).calls == map[t := Call(rest[1..], false, k + One(IsOpen(g, rest[0])))]
    ensures HasTask(Served(g, t), t) && Served(g, t).tasks[t].counter == k + One(IsOpen(g, rest[0]))
  {
  }

  lemma ServedTask(g: Graph, t: Id, x: Id)
    requires Enabled(g, Register(t)) && HasTask(g, t) && HasTask(g, x)
    ensures |Served(g, t).tasks| == |g.tasks|
    ensures Served(g, t).queue == g.queue && Served(g, t).started == g.started && Served(g, t).order == g.order
    ensures Served(g, t).tasks[x].dependents
         == g.tasks[x].dependents + if IsOpen(g, g.calls[t].rest[0]) && g.calls[t].rest[0] == Some(x) then [t] else []
    ensures Served(g, t).tasks[x].phase == g.tasks[x].phase
    ensures Served(g, t).tasks[x].completed == g.tasks[x].completed
    ensures Served(g, t).tasks[x].scheduled == g.tasks[x].scheduled
    ensures Served(g, t).tasks[x].listed == g.tasks[x].listed
    ensures x != t ==> Served(g, t).tasks[x].counter == g.tasks[x].counter
  {
  }

  /** A finishing task `t` changes no other task but for counters and lists. */
  ghost predicate OthersKept(before: Graph, g: Graph, t: Id) {
    && |g.tasks| == |before.tasks| && g.order == before.order
    && (forall x: Id :: HasTask(g, x) ==>
          && g.tasks[x].scheduled == before.tasks[x].scheduled
          && g.tasks[x].listed == before.tasks[x].listed
          && g.tasks[x].completed == before.tasks[x].completed
          && (x != t ==> g.tasks[x].phase == before.tasks[x].phase))
  }

  lemma FinishKeepsOthers(g: Graph, st: Step)
    requires Enabled(g, st) && (IsFinish(st) || st.Release?) && !st.Complete?
    ensures OthersKept(g, Next(g, st), st.task)
  {
    SameSize(g, st);
    hide Next;
    forall x: Id | HasTask(g, x) ensures TaskEvolves(g, st, Next(g, st), x) { TaskStep(g, st, x); }
  }

  lemma SameSize(g: Graph, st: Step)
    requires Enabled(g, st) && NoNewWork(st)
    ensures |Next(g, st).tasks| == |g.tasks| && Next(g, st).order == g.order
  {
  }

  lemma KeptByBoth(before: Graph, middle: Graph, g: Graph, t: Id)
    requires OthersKept(before, middle, t) && OthersKept(middle, g, t)
    ensures OthersKept(before, g, t)
  {
  }

  /** The first of the ready tasks have been enqueued, in order, and nothing else has happened. */
  ghost predicate HandedUpTo(before: Graph, g: Graph, t: Id, handed: seq<Id>) {
    && |g.tasks| == |before.tasks| && t < |g.tasks|
    && before.tasks[t].phase.Handing? && g.tasks[t].phase.Handing?
    && handed + g.tasks[t].phase.ready == before.tasks[t].phase.ready
    && g.queue == before.queue + handed
    && g.tasks[t].dependents == before.tasks[t].dependents
    && (forall x: Id :: HasTask(g, x) ==> g.tasks[x].counter == before.tasks[x].counter)
  }

  lemma HandNone(g: Graph, t: Id)
    requires HasTask(g, t) && g.tasks[t].phase.Handing?
    ensures HandedUpTo(g, g, t, []) && OthersKept(g, g, t)
  {
  }

  lemma HandOne(before: Graph, g: Graph, t: Id, handed: seq<Id>)
    requires HandedUpTo(before, g, t, handed) && Enabled(g, Hand(t))
    ensures HasTask(Next(g, Hand(t)), t) && Next(g, Hand(t)).tasks[t].phase == Handing(g.tasks[t].phase.ready[1..])
    ensures HandedUpTo(before, Next(g, Hand(t)), t, handed + [g.tasks[t].phase.ready[0]])
  {
  }

  lemma HandAll(before: Graph, g: Graph, t: Id, handed: seq<Id>)
    requires HandedUpTo(before, g, t, handed) && Enabled(g, Retire(t))
    ensures HasTask(Next(g, Retire(t)), t) && Next(g, Retire(t)).tasks[t].phase == Done
    ensures Next(g, Retire(t)).tasks[t].dependents == before.tasks[t].dependents
    ensures Next(g, Retire(t)).queue == before.queue + before.tasks[t].phase.ready
    ensures |Next(g, Retire(t)).tasks| == |before.tasks|
    ensures forall x: Id :: HasTask(before, x) ==> Next(g, Retire(t)).tasks[x].counter == before.tasks[x].counter
  {
  }

  /** Every task is either suspended at its beginning or done. */
  ghost predicate Resting(g: Graph) {
    forall t: Id :: HasTask(g, t) ==> g.tasks[t].phase.Idle? || g.tasks[t].phase.Done?
  }

  /** The same tasks with the same calls of `schedule`. */
  ghost predicate SameCalls(before: Graph, g: Graph) {
    && |g.tasks| == |before.tasks| && g.order == before.order
    && (forall x: Id :: HasTask(g, x) ==>
          g.tasks[x].scheduled == before.tasks[x].scheduled && g.tasks[x].listed == before.tasks[x].listed)
  }

  /** Tasks a worker has a job of. */
  function Serving(g: Graph): set<Id> {
    set t: Id | t < |g.tasks| && !g.tasks[t].phase.Idle? && !g.tasks[t].phase.Done?
  }

  /** What was complete is still complete. */
  ghost predicate CompletedStay(before: Graph, g: Graph) {
    forall x: Id :: HasTask(before, x) && before.tasks[x].completed ==> HasTask(g, x) && g.tasks[x].completed
  }

  ghost function IdleTasks(g: Graph): set<int> {
    set x | 0 <= x < |g.tasks| && g.tasks[x].phase.Idle?
  }

  class Scheduler {
    const workers: nat
    var graph: Graph
    /** Set from the start, cleared by `stop`. */
    var running: bool

    ghost predicate Valid()
      reads this
    {
      CalmInv(graph) && graph.calls == map[] && workers > 0
    }

    /** Asked for no workers it takes as many as the hardware runs at once, and one if that is unknown. */
    constructor (workerCount: nat, concurrency: nat)
      ensures Valid() && graph == EmptyGraph && running
      ensures workers == if workerCount > 0 then workerCount else if concurrency > 0 then concurrency else 1
    {
      workers := if workerCount > 0 then workerCount else if concurrency > 0 then concurrency else 1;
      graph, running := EmptyGraph, true;
      new;
      EmptyCalm();
    }

    /** One step of a worker. */
    method Work(st: Step)
      requires Valid() && Enabled(graph, st) && NoNewWork(st)
      modifies this`graph
      ensures Valid() && graph == Next(old(graph), st)
    {
      assert Calm(graph, st);
      StepKeepsCalm(graph, st);
      assert Next(graph, st).calls == map[] by { assert graph.calls.Keys == {}; }
      graph := Next(graph, st);
    }

    /** A coroutine comes into being, suspended. */
    method Spawn() returns (t: Id)
      requires Valid()
      modifies this`graph
      ensures Valid() && t == |old(graph).tasks| && graph == Next(old(graph), Create)
    {
      t := |graph.tasks|;
      StepKeepsCalm(graph, Create);
      graph := Next(graph, Create);
    }

    /**
     `schedule`, undisturbed: the task ends up with as many registrations as it has open tokens,
     and its start is enqueued at once exactly when there are none.
     */
    method Schedule(t: Id, tokens: seq<Option<Id>>)
      requires Valid() && Enabled(graph, Begin(t, tokens))
      modifies this`graph
      ensures Valid() && |graph.tasks| == |old(graph).tasks|
      ensures graph.tasks[t].scheduled && graph.tasks[t].listed == tokens
      ensures graph.tasks[t].counter == OpenCount(old(graph), tokens)
      ensures graph.queue == old(graph).queue + if OpenCount(old(graph), tokens) == 0 then [t] else []
      ensures graph.started == old(graph).started && graph.order == old(graph).order + [t]
      ensures forall x: Id :: HasTask(graph, x) ==> RegisteredWith(old(graph), graph, t, tokens, x)
    {
      hide CalmInv, RegisteredWith, OpenCount;
      ghost var before := graph;
      StepKeepsCalm(graph, Begin(t, tokens));
      BeginHalfway(graph, t, tokens);
      graph := Next(graph, Begin(t, tokens));
      var i := 0;
      while i < |tokens|
        invariant 0 <= i <= |tokens|
        invariant CalmInv(graph) && Halfway(before, graph, t, tokens[..i], tokens[i..])
      {
        ServeOne(before, graph, t, tokens, i);
        graph := Next(graph, Register(t));
        if graph.calls[t].uncounted {
          graph := Next(graph, Count(t));
        }
        i := i + 1;
      }
      assert tokens[..i] == tokens && tokens[i..] == [];
      FinishCall(before, graph, t, tokens);
      graph := Next(graph, EndCall(t));
    }

    /**
     `on_task_finished`, undisturbed, with the hand-over of the ready tasks: every counter drops by
     the number of registrations it had in the list, and exactly the tasks whose counter this
     brings to zero are enqueued, once each.
     */
    method OnTaskFinished(t: Id)
      requires Valid() && Enabled(graph, StartRelease(t))
      modifies this`graph
      ensures OthersKept(old(graph), graph, t)
      ensures Valid() && |graph.tasks| == |old(graph).tasks|
      ensures graph.tasks[t].phase == Done && graph.tasks[t].dependents == []
      ensures graph.queue == old(graph).queue + Zeroed(old(graph), old(graph).tasks[t].dependents)
      ensures forall x: Id :: HasTask(graph, x) ==>
                graph.tasks[x].counter + multiset(old(graph).tasks[t].dependents)[x] == old(graph).tasks[x].counter
      ensures forall x: Id :: HasTask(graph, x) ==>
                multiset(graph.queue)[x] == multiset(old(graph).queue)[x]
                  + One(old(graph).tasks[x].counter > 0
                        && old(graph).tasks[x].counter == multiset(old(graph).tasks[t].dependents)[x])
    {
      ghost var before := graph;
      ReleaseDependents(t);
      ghost var cleared := graph;
      HandReady(t);
      KeptByBoth(before, cleared, graph, t);
      forall x: Id | HasTask(graph, x)
        ensures graph.tasks[x].counter + multiset(before.tasks[t].dependents)[x] == before.tasks[x].counter
        ensures multiset(graph.queue)[x] == multiset(before.queue)[x]
                  + One(before.tasks[x].counter > 0
                        && before.tasks[x].counter == multiset(before.tasks[t].dependents)[x])
      {
        assert ReleasedTask(before, cleared, cleared.tasks[t].phase.ready, before.tasks[t].dependents, x);
      }
    }

    /** The loop over the dependent list, up to clearing it. */
    method ReleaseDependents(t: Id)
      requires Valid() && Enabled(graph, StartRelease(t))
      modifies this`graph
      ensures OthersKept(old(graph), graph, t)
      ensures Valid() && |graph.tasks| == |old(graph).tasks| && HasTask(graph, t)
      ensures graph.tasks[t].phase.Handing? && graph.tasks[t].dependents == []
      ensures graph.queue == old(graph).queue
      ensures graph.tasks[t].phase.ready == Zeroed(old(graph), old(graph).tasks[t].dependents)
      ensures forall x: Id :: HasTask(graph, x) ==>
                ReleasedTask(old(graph), graph, graph.tasks[t].phase.ready, old(graph).tasks[t].dependents, x)
    {
      hide CalmInv, Next, ReleasedTask;
      ghost var before := graph;
      var list := graph.tasks[t].dependents;
      StartReleased(graph, t);
      FinishKeepsOthers(graph, StartRelease(t));
      Work(StartRelease(t));
      var i := 0;
      while i < |list|
        invariant 0 <= i <= |list|
        invariant Valid() && ReleasedUpTo(before, graph, t, i) && OthersKept(before, graph, t)
      {
        ReleaseOne(before, graph, t, i);
        FinishKeepsOthers(graph, Release(t));
        KeptByBoth(before, graph, Next(graph, Release(t)), t);
        Work(Release(t));
        i := i + 1;
      }
      ReleasedAll(before, graph, t);
      FinishKeepsOthers(graph, ClearList(t));
      KeptByBoth(before, graph, Next(graph, ClearList(t)), t);
      Work(ClearList(t));
    }

    /** The loop that enqueues the ready tasks. */
    method HandReady(t: Id)
      requires Valid() && HasTask(graph, t) && graph.tasks[t].phase.Handing?
      modifies this`graph
      ensures OthersKept(old(graph), graph, t)
      ensures Valid() && |graph.tasks| == |old(graph).tasks|
      ensures graph.tasks[t].phase == Done && graph.tasks[t].dependents == old(graph).tasks[t].dependents
      ensures graph.queue == old(graph).queue + old(graph).tasks[t].phase.ready
      ensures forall x: Id :: HasTask(graph, x) ==> graph.tasks[x].counter == old(graph).tasks[x].counter
    {
      hide CalmInv, Next, OthersKept, HandedUpTo;
      ghost var before := graph;
      ghost var handed: seq<Id> := [];
      HandNone(graph, t);
      while graph.tasks[t].phase.ready != []
        invariant Valid() && HasTask(graph, t) && graph.tasks[t].phase.Handing? && OthersKept(before, graph, t)
        invariant HandedUpTo(before, graph, t, handed)
        decreases |graph.tasks[t].phase.ready|
      {
        HandOne(before, graph, t, handed);
        FinishKeepsOthers(graph, Hand(t));
        KeptByBoth(before, graph, Next(graph, Hand(t)), t);
        handed := handed + [graph.tasks[t].phase.ready[0]];
        Work(Hand(t));
      }
      HandAll(before, graph, t, handed);
      FinishKeepsOthers(graph, Retire(t));
      KeptByBoth(before, graph, Next(graph, Retire(t)), t);
      Work(Retire(t));
    }

    method Stop()
      modifies this`running
      ensures !running
    {
      running := false;
    }

    /**
     The loop of a worker that is on its own: jobs are popped and run to their end until the queue
     is empty or the scheduler has been stopped.  It leaves nothing behind.
     */
    method RunWorker()
      requires Valid() && Resting(graph)
      modifies this`graph
      ensures Valid() && Resting(graph) && SameCalls(old(graph), graph)
      ensures running ==> Quiet(graph)
      ensures running && Layered(old(graph)) ==> AllComplete(graph)
      ensures !running ==> graph == old(graph)
    {
      hide CalmInv, Next, Layered, AllComplete, Resting, SameCalls, OthersKept, IdleTasks;
      ghost var before := graph;
      SameCallsSelf(graph);
      while running && graph.queue != []
        invariant Valid() && Resting(graph) && SameCalls(before, graph)
        invariant !running ==> graph == before
        decreases IdleTasks(graph)
      {
        ghost var g0 := graph;
        var t := graph.queue[0];
        JobStarts(graph);
        Work(Dequeue);
        Work(Complete(t));
        ghost var g1 := graph;
        OnTaskFinished(t);
        JobDone(g0, g1, graph, t);
        SameCallsChain(before, g0, graph);
      }
      if running {
        RestingIsQuiet(graph);
        WorkerCompletes(before, graph);
      }
    }

    /**
     All workers at once, each with a job of its own and taking turns in any order: whoever is free
     pops the next job, whoever has one takes it a step further.  They come to rest when the queue
     is empty and every job is done; once the scheduler was stopped no further job is popped.
     */
    method RunWorkers()
      requires Valid()
      modifies this`graph
      ensures Valid() && Resting(graph) && SameCalls(old(graph), graph) && CompletedStay(old(graph), graph)
      ensures running ==> Quiet(graph)
      ensures running && Layered(old(graph)) ==> AllComplete(graph)
      ensures !running ==> graph.started == old(graph).started
      ensures !running && Resting(old(graph)) ==> graph == old(graph)
    {
      hide CalmInv, Next, Layered, AllComplete, Resting, SameCalls, CompletedStay, Serving, Enabled, Remaining, Quiet;
      ghost var before := graph;
      NothingUndone(graph);
      var busy := Serving(graph);
      while busy != {} || (running && graph.queue != [])
        invariant Valid() && busy == Serving(graph) && SameCalls(before, graph) && CompletedStay(before, graph)
        invariant !running ==> graph.started == before.started
        invariant !running && Resting(before) ==> graph == before && busy == {}
        decreases Remaining(graph)
      {
        ghost var g0 := graph;
        var popNext := *;
        if running && graph.queue != [] && |busy| < workers && (busy == {} || popNext) {
          PopServes(graph);
          busy := busy + {graph.queue[0]};
          Work(Dequeue);
        } else {
          var t :| t in busy;
          ProgressServes(graph, t);
          var st := TaskProgress(graph.tasks[t], t);
          Work(st);
          if graph.tasks[t].phase.Done? {
            busy := busy - {t};
          }
        }
        SameCallsChain(before, g0, graph);
        StayChain(before, g0, graph);
      }
      ServingNone(graph);
      if running {
        RestingIsQuiet(graph);
        WorkerCompletes(before, graph);
      }
    }
  }

  lemma SameCallsSelf(g: Graph)
    ensures SameCalls(g, g)
  {
  }

  lemma SameCallsChain(before: Graph, middle: Graph, g: Graph)
    requires SameCalls(before, middle) && SameCalls(middle, g)
    ensures SameCalls(before, g)
  {
  }

  lemma NothingUndone(g: Graph)
    ensures SameCalls(g, g) && CompletedStay(g, g) && (Resting(g) <==> Serving(g) == {})
  {
    assert forall t: Id :: HasTask(g, t) && !g.tasks[t].phase.Idle? && !g.tasks[t].phase.Done? ==> t in Serving(g);
  }

  lemma StayChain(before: Graph, middle: Graph, g: Graph)
    requires CompletedStay(before, middle) && CompletedStay(middle, g)
    ensures CompletedStay(before, g)
  {
  }

  lemma ServingNone(g: Graph)
    requires Serving(g) == {}
    ensures Resting(g)
  {
    NothingUndone(g);
  }

  /** A step without new work, seen from outside: no task is added, rescheduled or undone. */
  lemma WorkKeepsCalls(g: Graph, st: Step)
    requires GraphInv(g) && Enabled(g, st) && NoNewWork(st)
    ensures SameCalls(g, Next(g, st)) && CompletedStay(g, Next(g, st))
    ensures Remaining(Next(g, st)) < Remaining(g)
  {
    SameSize(g, st);
    StepLowers(g, st);
    hide Next, Remaining, GraphInv, Enabled;
    forall x: Id | HasTask(g, x)
      ensures HasTask(Next(g, st), x) && Next(g, st).tasks[x].scheduled == g.tasks[x].scheduled
      ensures Next(g, st).tasks[x].listed == g.tasks[x].listed
      ensures g.tasks[x].completed ==> Next(g, st).tasks[x].completed
    {
      TaskStep(g, st, x);
    }
  }

  /** A free worker takes on a task nobody was serving. */
  lemma PopServes(g: Graph)
    requires CalmInv(g) && g.queue != []
    ensures Enabled(g, Dequeue) && Serving(Next(g, Dequeue)) == Serving(g) + {g.queue[0]}
    ensures SameCalls(g, Next(g, Dequeue)) && CompletedStay(g, Next(g, Dequeue))
    ensures Remaining(Next(g, Dequeue)) < Remaining(g)
  {
    JobStarts(g);
    CalmParts(g);
    WorkKeepsCalls(g, Dequeue);
    hide CalmInv, GraphInv, Next, Remaining, SameCalls, CompletedStay;
  }

  lemma ServingAfter(g: Graph, g': Graph, t: Id)
    requires |g'.tasks| == |g.tasks| && t in Serving(g)
    requires forall x: Id :: HasTask(g, x) && x != t ==> g'.tasks[x].phase == g.tasks[x].phase
    requires !g'.tasks[t].phase.Idle?
    ensures Serving(g') == if g'.tasks[t].phase.Done? then Serving(g) - {t} else Serving(g)
  {
  }

  /** A worker with a job can take it a step further, and is free when the task is done. */
  lemma ProgressServes(g: Graph, t: Id)
    requires CalmInv(g) && t in Serving(g)
    ensures HasTask(g, t)
    ensures var st := TaskProgress(g.tasks[t], t);
            && Enabled(g, st) && NoNewWork(st) && Next(g, st).started == g.started
            && HasTask(Next(g, st), t)
            && Serving(Next(g, st)) == (if Next(g, st).tasks[t].phase.Done? then Serving(g) - {t} else Serving(g))
            && SameCalls(g, Next(g, st)) && CompletedStay(g, Next(g, st))
            && Remaining(Next(g, st)) < Remaining(g)
  {
    CalmParts(g);
    ProgressEnabled(g, t);
    hide CalmInv, GraphInv, Next, Remaining, Enabled, SameCalls, CompletedStay;
    var st := TaskProgress(g.tasks[t], t);
    WorkKeepsCalls(g, st);
    SizeKept(g, st);
    forall x: Id | HasTask(g, x) && x != t ensures Next(g, st).tasks[x].phase == g.tasks[x].phase {
      TaskStep(g, st, x);
    }
    TaskStep(g, st, t);
    ServingAfter(g, Next(g, st), t);
  }

  lemma SizeKept(g: Graph, st: Step)
    requires Enabled(g, st) && NoNewWork(st) && !st.Dequeue?
    ensures |Next(g, st).tasks| == |g.tasks| && Next(g, st).started == g.started
  {
  }

  lemma ProgressEnabled(g: Graph, t: Id)
    requires GraphInv(g) && t in Serving(g)
    ensures var st := TaskProgress(g.tasks[t], t);
            Enabled(g, st) && NoNewWork(st) && (IsFinish(st) || st.Release?) && st.task == t
  {
    hide AllCounted, Gated, Sourced, Logged;
    assert HasTask(g, t) && Shaped(g.tasks[t]) && Names(g, g.tasks[t].dependents);
    var task := g.tasks[t];
    if task.phase.Releasing? && task.phase.cursor < |task.dependents| {
      assert task.dependents[task.phase.cursor] in task.dependents;
    }
  }

  /** A queued job is that of a task that has not started. */
  lemma JobStarts(g: Graph)
    requires CalmInv(g) && g.queue != []
    ensures Enabled(g, Dequeue) && g.tasks[g.queue[0]].phase.Idle?
    ensures Next(g, Dequeue).tasks == g.tasks[g.queue[0] := g.tasks[g.queue[0]].(phase := Running)]
    ensures Next(g, Dequeue).calls == g.calls && Next(g, Dequeue).order == g.order
    ensures Enabled(Next(g, Dequeue), Complete(g.queue[0]))
    ensures var g2 := Next(Next(g, Dequeue), Complete(g.queue[0]));
            && |g2.tasks| == |g.tasks| && g2.order == g.order && Enabled(g2, StartRelease(g.queue[0]))
            && (forall x: Id :: HasTask(g, x) && x != g.queue[0] ==> g2.tasks[x] == g.tasks[x])
            && g2.tasks[g.queue[0]].scheduled == g.tasks[g.queue[0]].scheduled
            && g2.tasks[g.queue[0]].listed == g.tasks[g.queue[0]].listed
  {
    QueuedIsIdle(g);
    hide CalmInv;
  }

  lemma QueuedIsIdle(g: Graph)
    requires CalmInv(g) && g.queue != []
    ensures HasTask(g, g.queue[0]) && g.tasks[g.queue[0]].phase.Idle?
  {
    hide Readied, Waiting, Lost, Untouched, AllShaped, AllCounted, Gated, Sourced, Logged;
    var t := g.queue[0];
    assert t in g.queue && Single(g, t);
  }

  lemma JobDone(g0: Graph, g1: Graph, g: Graph, t: Id)
    requires Resting(g0) && HasTask(g0, t) && g0.tasks[t].phase.Idle?
    requires |g1.tasks| == |g0.tasks| && g1.order == g0.order
    requires forall x: Id :: HasTask(g0, x) && x != t ==> g1.tasks[x] == g0.tasks[x]
    requires g1.tasks[t].scheduled == g0.tasks[t].scheduled && g1.tasks[t].listed == g0.tasks[t].listed
    requires OthersKept(g1, g, t) && g.tasks[t].phase == Done
    ensures Resting(g) && SameCalls(g0, g) && IdleTasks(g) < IdleTasks(g0)
  {
    assert t in IdleTasks(g0) && t !in IdleTasks(g);
  }

  lemma RestingIsQuiet(g: Graph)
    requires Resting(g) && g.queue == [] && g.calls == map[]
    ensures Quiet(g)
  {
  }

  lemma WorkerCompletes(before: Graph, g: Graph)
    requires CalmInv(g) && Quiet(g) && SameCalls(before, g)
    ensures Layered(before) ==> Layered(g) && AllComplete(g)
  {
    hide CalmInv, Quiet, Layered;
    if Layered(before) {
      SameLayered(before, g);
      CalmParts(g);
      QuietIff(g);
    }
  }

  lemma BeginHalfway(g: Graph, t: Id, tokens: seq<Option<Id>>)
    requires CalmInv(g) && g.calls == map[] && Enabled(g, Begin(t, tokens))
    ensures Halfway(g, Next(g, Begin(t, tokens)), t, tokens[..0], tokens[0..])
  {
    assert tokens[0..] == tokens && tokens[..0] == [];
    NewCounterIsZero(g, t);
    hide CalmInv, Waiting;
    forall x: Id | HasTask(g, x) ensures RegisteredWith(g, Next(g, Begin(t, tokens)), t, [], x) {
      assert Mentions([], x) == 0;
    }
  }

  lemma NewCounterIsZero(g: Graph, t: Id)
    requires GraphInv(g) && g.calls == map[] && HasTask(g, t) && !g.tasks[t].scheduled
    ensures g.tasks[t].counter == 0
  {
    CounterOf(g, t);
    BegunOwesNothing(g, t);
    hide GraphInv, Waiting;
  }

  lemma ServeOne(before: Graph, g: Graph, t: Id, tokens: seq<Option<Id>>, i: nat)
    requires CalmInv(g) && i < |tokens| < WORD && Halfway(before, g, t, tokens[..i], tokens[i..])
    ensures Enabled(g, Register(t)) && HasTask(g, t)
    ensures t in Next(g, Register(t)).calls
    ensures Next(g, Register(t)).calls[t].uncounted ==> Enabled(Next(g, Register(t)), Count(t))
    ensures CalmInv(Served(g, t)) && Halfway(before, Served(g, t), t, tokens[..i + 1], tokens[i + 1..])
  {
    assert t in g.calls && g.calls[t].rest == tokens[i..];
    hide CalmInv, Halfway, Next, Enabled;
    RestInRange(g, t);
    assert tokens[i..][0] == tokens[i] && tokens[i..][1..] == tokens[i + 1..];
    assert tokens[..i] + [tokens[i]] == tokens[..i + 1];
    ServedHalfway(before, g, t, tokens[..i], tokens[i..]);
    ServedOrder(g, t);
  }

  lemma RestInRange(g: Graph, t: Id)
    requires CalmInv(g) && t in g.calls
    ensures KnownTokens(g, g.calls[t].rest)
  {
    hide AllShaped, AllCounted, Gated, Sourced, Logged, Single, Lost, Untouched;
  }

  lemma ServedOrder(g: Graph, t: Id)
    requires CalmInv(g) && Enabled(g, Register(t)) && HasTask(g, t)
    ensures t in Next(g, Register(t)).calls
    ensures Next(g, Register(t)).calls[t].uncounted ==> Enabled(Next(g, Register(t)), Count(t))
    ensures CalmInv(Served(g, t))
  {
    hide CalmInv;
    StepKeepsCalm(g, Register(t));
    if Next(g, Register(t)).calls[t].uncounted { StepKeepsCalm(Next(g, Register(t)), Count(t)); }
  }

  lemma FinishCall(before: Graph, g: Graph, t: Id, tokens: seq<Option<Id>>)
    requires CalmInv(g) && Halfway(before, g, t, tokens, [])
    ensures Enabled(g, EndCall(t)) && CalmInv(Next(g, EndCall(t))) && Next(g, EndCall(t)).calls == map[]
    ensures Next(g, EndCall(t)).tasks == g.tasks && Next(g, EndCall(t)).started == g.started
    ensures Next(g, EndCall(t)).order == g.order
    ensures forall x: Id :: HasTask(g, x) ==> RegisteredWith(before, Next(g, EndCall(t)), t, tokens, x)
    ensures Next(g, EndCall(t)).queue == before.queue + if OpenCount(before, tokens) == 0 then [t] else []
  {
    hide CalmInv, Registrations;
    StepKeepsCalm(g, EndCall(t));
    assert g.calls - {t} == map[];
    forall x: Id | HasTask(g, x) ensures RegisteredWith(before, Next(g, EndCall(t)), t, tokens, x) {
      assert RegisteredWith(before, g, t, tokens, x);
    }
  }

  /** What processing the registrations `done` has done to the counter and readiness of `x`. */
  ghost predicate ReleasedTask(before: Graph, g: Graph, ready: seq<Id>, done: seq<Id>, x: Id)
    requires HasTask(before, x) && HasTask(g, x)
  {
    && g.tasks[x].counter + multiset(done)[x] == before.tasks[x].counter
    && multiset(ready)[x] == One(before.tasks[x].counter > 0 && before.tasks[x].counter == multiset(done)[x])
  }

  /** The registration at place `k` of the list is the one that brings its owner's counter to zero. */
  predicate ZeroedAt(g: Graph, list: seq<Id>, k: nat)
    requires k < |list|
  {
    HasTask(g, list[k]) && g.tasks[list[k]].counter == multiset(list[..k + 1])[list[k]]
  }

  /** The owners whose counters the list brings to zero, in the order in which it does. */
  function Zeroed(g: Graph, list: seq<Id>): seq<Id> {
    if list == [] then []
    else Zeroed(g, list[..|list| - 1]) + (if ZeroedAt(g, list, |list| - 1) then [list[|list| - 1]] else [])
  }

  lemma ZeroedOneMore(g: Graph, list: seq<Id>, i: nat)
    requires i < |list|
    ensures Zeroed(g, list[..i + 1]) == Zeroed(g, list[..i]) + if ZeroedAt(g, list, i) then [list[i]] else []
  {
    var longer := list[..i + 1];
    assert longer[..i] == list[..i] && longer[i] == list[i] && longer[..i + 1] == longer;
  }

  lemma ZeroedEarlier(g: Graph, list: seq<Id>, n: nat, a: nat)
    requires a < n <= |list|
    ensures ZeroedAt(g, list[..n], a) <==> ZeroedAt(g, list, a)
  {
    assert list[..n][..a + 1] == list[..a + 1];
  }

  lemma {:induction false} ZeroedOnce(g: Graph, list: seq<Id>, i: nat)
    requires i < |Zeroed(g, list)|
    ensures exists a :: 0 <= a < |list| && ZeroedAt(g, list, a) && list[a] == Zeroed(g, list)[i]
  {
    hide ZeroedAt;
    var n := |list| - 1;
    var shorter := list[..n];
    if i < |Zeroed(g, shorter)| {
      ZeroedOnce(g, shorter, i);
      var a :| 0 <= a < |shorter| && ZeroedAt(g, shorter, a) && shorter[a] == Zeroed(g, shorter)[i];
      ZeroedEarlier(g, list, n, a);
    } else {
      assert ZeroedAt(g, list, n);
    }
  }

  /** Places `a` and `b` of the list bring the `i`-th and the `j`-th of its ready tasks to zero. */
  ghost predicate ZeroedBy(g: Graph, list: seq<Id>, i: nat, j: nat, a: nat, b: nat)
    requires i < j < |Zeroed(g, list)| && a < b < |list|
  {
    && ZeroedAt(g, list, a) && list[a] == Zeroed(g, list)[i]
    && ZeroedAt(g, list, b) && list[b] == Zeroed(g, list)[j]
  }

  /** The order of the ready tasks is that of the registrations that made them ready. */
  lemma {:induction false} ZeroedInOrder(g: Graph, list: seq<Id>, i: nat, j: nat)
    requires i < j < |Zeroed(g, list)|
    ensures exists a: nat, b: nat | a < b < |list| :: ZeroedBy(g, list, i, j, a, b)
  {
    hide ZeroedAt;
    var n := |list| - 1;
    var shorter := list[..n];
    if j < |Zeroed(g, shorter)| {
      ZeroedInOrder(g, shorter, i, j);
      var a: nat, b: nat :| a < b < |shorter| && ZeroedBy(g, shorter, i, j, a, b);
      ZeroedEarlier(g, list, n, a);
      ZeroedEarlier(g, list, n, b);
      assert ZeroedBy(g, list, i, j, a, b);
    } else {
      ZeroedOnce(g, shorter, i);
      var a :| 0 <= a < |shorter| && ZeroedAt(g, shorter, a) && shorter[a] == Zeroed(g, shorter)[i];
      ZeroedEarlier(g, list, n, a);
      assert ZeroedBy(g, list, i, j, a, n);
    }
  }

  /** `on_task_finished` of `t` has processed the first `i` registrations. */
  ghost predicate ReleasedUpTo(before: Graph, g: Graph, t: Id, i: nat) {
    && HasTask(before, t) && |g.tasks| == |before.tasks| && g.queue == before.queue
    && i <= |before.tasks[t].dependents|
    && g.tasks[t].dependents == before.tasks[t].dependents
    && g.tasks[t].phase.Releasing? && g.tasks[t].phase.cursor == i
    && g.tasks[t].phase.ready == Zeroed(before, before.tasks[t].dependents[..i])
    && (forall x: Id :: HasTask(before, x) ==>
          ReleasedTask(before, g, g.tasks[t].phase.ready, before.tasks[t].dependents[..i], x))
  }

  lemma CountPrefix(s: seq<Id>, i: nat, x: Id)
    requires i < |s|
    ensures multiset(s[..i + 1])[x] == multiset(s[..i])[x] + One(x == s[i])
  {
    assert s[..i + 1] == s[..i] + [s[i]];
  }

  lemma StartReleased(g: Graph, t: Id)
    requires Enabled(g, StartRelease(t))
    ensures ReleasedUpTo(g, Next(g, StartRelease(t)), t, 0)
  {
    assert g.tasks[t].dependents[..0] == [];
  }

  lemma OwnersAreCounted(g: Graph, t: Id)
    requires CalmInv(g) && g.calls == map[] && HasTask(g, t) && g.tasks[t].phase.Releasing?
    requires g.tasks[t].phase.cursor < |g.tasks[t].dependents|
    ensures Enabled(g, Release(t)) && g.tasks[Released(g, Release(t))].counter >= 1
  {
    hide CalmInv, Waiting, GraphInv;
    CalmParts(g);
    var x := g.tasks[t].dependents[g.tasks[t].phase.cursor];
    DependentsAreTasks(g, t);
    assert x in g.tasks[t].dependents;
    OwedOnRelease(g, t, x);
    CounterOf(g, x);
  }

  lemma DependentsAreTasks(g: Graph, t: Id)
    requires GraphInv(g) && HasTask(g, t)
    ensures Names(g, g.tasks[t].dependents)
  {
    hide AllShaped, AllCounted, Gated, Sourced, Logged;
  }

  lemma OwedOnRelease(g: Graph, t: Id, x: Id)
    requires GraphInv(g) && Enabled(g, Release(t)) && Releases(g, Release(t), x) && HasTask(g, x)
    ensures Waiting(g.tasks)[x] >= 1
  {
    hide Waiting, AllCounted, Gated, Sourced, Logged;
    HitOwes(g, Release(t), x);
  }

  lemma ReleaseTaskStep(g: Graph, t: Id, y: Id)
    requires Enabled(g, Release(t)) && HasTask(g, y) && g.tasks[Released(g, Release(t))].counter >= 1
    ensures var g' := Next(g, Release(t));
            var x := Released(g, Release(t));
            && |g'.tasks| == |g.tasks| && g'.queue == g.queue
            && g'.tasks[y].counter + One(y == x) == g.tasks[y].counter
            && g'.tasks[t].dependents == g.tasks[t].dependents
            && g'.tasks[t].phase == Releasing(
                 g.tasks[t].phase.cursor + 1,
                 if g.tasks[x].counter == 1 then g.tasks[t].phase.ready + [x] else g.tasks[t].phase.ready)
  {
  }

  lemma ReleaseOneTask(before: Graph, g: Graph, t: Id, i: nat, y: Id)
    requires HasTask(before, t) && |g.tasks| == |before.tasks| && HasTask(before, y)
    requires Enabled(g, Release(t)) && g.tasks[Released(g, Release(t))].counter >= 1
    requires g.tasks[t].dependents == before.tasks[t].dependents && g.tasks[t].phase.cursor == i
    requires ReleasedTask(before, g, g.tasks[t].phase.ready, before.tasks[t].dependents[..i], y)
    ensures |Next(g, Release(t)).tasks| == |g.tasks| && Next(g, Release(t)).tasks[t].phase.Releasing?
    ensures ReleasedTask(before, Next(g, Release(t)), Next(g, Release(t)).tasks[t].phase.ready,
                         before.tasks[t].dependents[..i + 1], y)
  {
    var list := before.tasks[t].dependents;
    var ready: seq<Id> := g.tasks[t].phase.ready;
    assert Released(g, Release(t)) == list[i];
    hide Next, Enabled;
    ReleaseTaskStep(g, t, y);
    CountPrefix(list, i, y);
    LastOn(ready, list[i], y);
  }

  lemma OwnerHitsZero(before: Graph, g: Graph, t: Id, i: nat)
    requires CalmInv(g) && g.calls == map[] && ReleasedUpTo(before, g, t, i) && i < |before.tasks[t].dependents|
    ensures Enabled(g, Release(t)) && HasTask(g, Released(g, Release(t)))
    ensures ZeroedAt(before, before.tasks[t].dependents, i) <==> g.tasks[Released(g, Release(t))].counter == 1
    ensures Released(g, Release(t)) == before.tasks[t].dependents[i]
  {
    hide CalmInv, Zeroed;
    OwnersAreCounted(g, t);
    var x := before.tasks[t].dependents[i];
    assert ReleasedTask(before, g, g.tasks[t].phase.ready, before.tasks[t].dependents[..i], x);
    CountPrefix(before.tasks[t].dependents, i, x);
  }

  lemma ReleaseOne(before: Graph, g: Graph, t: Id, i: nat)
    requires CalmInv(g) && g.calls == map[] && ReleasedUpTo(before, g, t, i) && i < |before.tasks[t].dependents|
    ensures Enabled(g, Release(t)) && ReleasedUpTo(before, Next(g, Release(t)), t, i + 1)
  {
    OwnerHitsZero(before, g, t, i);
    hide CalmInv, Next, Enabled, ReleasedTask, ZeroedAt;
    OwnersAreCounted(g, t);
    ReleaseTaskStep(g, t, t);
    ZeroedOneMore(before, before.tasks[t].dependents, i);
    forall y: Id | HasTask(before, y)
      ensures ReleasedTask(before, Next(g, Release(t)), Next(g, Release(t)).tasks[t].phase.ready,
                           before.tasks[t].dependents[..i + 1], y)
    {
      ReleaseOneTask(before, g, t, i, y);
    }
  }

  lemma ReleasedAll(before: Graph, g: Graph, t: Id)
    requires HasTask(before, t) && ReleasedUpTo(before, g, t, |before.tasks[t].dependents|)
    ensures Enabled(g, ClearList(t)) && |Next(g, ClearList(t)).tasks| == |before.tasks|
    ensures Next(g, ClearList(t)).queue == before.queue
    ensures Next(g, ClearList(t)).tasks[t].phase == Handing(g.tasks[t].phase.ready)
    ensures Next(g, ClearList(t)).tasks[t].dependents == []
    ensures g.tasks[t].phase.ready == Zeroed(before, before.tasks[t].dependents)
    ensures forall x: Id :: HasTask(before, x) ==>
              ReleasedTask(before, Next(g, ClearList(t)), g.tasks[t].phase.ready, before.tasks[t].dependents, x)
  {
    assert before.tasks[t].dependents[..|before.tasks[t].dependents|] == before.tasks[t].dependents;
    forall x: Id | HasTask(before, x)
      ensures ReleasedTask(before, Next(g, ClearList(t)), g.tasks[t].phase.ready, before.tasks[t].dependents, x)
    {
      assert ReleasedTask(before, g, g.tasks[t].phase.ready, before.tasks[t].dependents, x);
    }
  }
}
