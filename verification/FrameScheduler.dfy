/**
 The frame scheduler: names for tasks, delayed tasks, and waiting for all of them.
 */
module FrameScheduler {
  import opened Options
  import opened TaskGraph
  import opened GraphBooks
  import opened TaskOrder
  import opened TaskRuns
  import opened TaskScheduler
  import TaskDrain

  class Frame {
    const scheduler: Scheduler
    var tokens: map<string, Id>

    ghost predicate Valid()
      reads this, scheduler
    {
      && scheduler.Valid() && Layered(scheduler.graph)
      && forall name :: name in tokens ==>
           HasTask(scheduler.graph, tokens[name]) && scheduler.graph.tasks[tokens[name]].scheduled
    }

    constructor (scheduler: Scheduler)
      requires scheduler.Valid() && Layered(scheduler.graph)
      ensures this.scheduler == scheduler && tokens == map[] && Valid()
    {
      this.scheduler := scheduler;
      tokens := map[];
    }

    /** The tokens a caller can hold were returned by an earlier `schedule`. */
    predicate Issued(dependencies: seq<Option<Id>>)
      reads scheduler
    {
      forall d: Option<Id> :: d in dependencies && d.Some? ==>
        HasTask(scheduler.graph, d.value) && scheduler.graph.tasks[d.value].scheduled
    }

    /** A worker takes a step; tokens and their order are none of its business. */
    method Work(st: Step)
      requires Valid() && Enabled(scheduler.graph, st) && TaskDrain.NoNewWork(st)
      modifies scheduler
      ensures Valid() && scheduler.graph == Next(old(scheduler.graph), st)
    {
      ghost var before := scheduler.graph;
      StepLayered(before, st);
      scheduler.Work(st);
      hide CalmInv, Layered, Next;
      forall x: Id | HasTask(before, x) && before.tasks[x].scheduled
        ensures HasTask(scheduler.graph, x) && scheduler.graph.tasks[x].scheduled
      {
        TaskStep(before, st, x);
        ScheduledStep(before, st, x);
      }
    }

    /** The first task scheduled under a name keeps it: `emplace` does not overwrite. */
    method Schedule(name: string, dependencies: seq<Option<Id>>) returns (token: Id)
      requires Valid() && Issued(dependencies) && |dependencies| < WORD
      modifies this, scheduler
      ensures Valid() && token == |old(scheduler.graph).tasks|
      ensures |scheduler.graph.tasks| == token + 1
      ensures scheduler.graph.tasks[token].scheduled && scheduler.graph.tasks[token].listed == dependencies
      ensures tokens == if name in old(tokens) then old(tokens) else old(tokens)[name := token]
      ensures forall x: Id :: HasTask(old(scheduler.graph), x) ==>
                && scheduler.graph.tasks[x].scheduled == old(scheduler.graph).tasks[x].scheduled
                && scheduler.graph.tasks[x].listed == old(scheduler.graph).tasks[x].listed
                && scheduler.graph.tasks[x].completed == old(scheduler.graph).tasks[x].completed
                && scheduler.graph.tasks[x].phase == old(scheduler.graph).tasks[x].phase
      ensures scheduler.graph.tasks[token].phase == Idle
      ensures Resting(old(scheduler.graph)) ==> Resting(scheduler.graph)
    {
      token := ScheduleOn(dependencies);
      if name !in tokens {
        tokens := tokens[name := token];
      }
    }

    method ScheduleOn(dependencies: seq<Option<Id>>) returns (token: Id)
      requires Valid() && Issued(dependencies) && |dependencies| < WORD
      modifies scheduler
      ensures Valid() && token == |old(scheduler.graph).tasks|
      ensures |scheduler.graph.tasks| == token + 1
      ensures scheduler.graph.tasks[token].scheduled && scheduler.graph.tasks[token].listed == dependencies
      ensures forall x: Id :: HasTask(old(scheduler.graph), x) ==>
                && scheduler.graph.tasks[x].scheduled == old(scheduler.graph).tasks[x].scheduled
                && scheduler.graph.tasks[x].listed == old(scheduler.graph).tasks[x].listed
                && scheduler.graph.tasks[x].completed == old(scheduler.graph).tasks[x].completed
                && scheduler.graph.tasks[x].phase == old(scheduler.graph).tasks[x].phase
      ensures scheduler.graph.tasks[token].phase == Idle
      ensures Resting(old(scheduler.graph)) ==> Resting(scheduler.graph)
    {
      hide CalmInv, Layered, OpenCount, Registrations;
      ghost var before := scheduler.graph;
      token := scheduler.Spawn();
      ghost var spawned := scheduler.graph;
      Spawned(before);
      assert KnownTokens(spawned, dependencies);
      assert Enabled(spawned, Begin(token, dependencies));
      scheduler.Schedule(token, dependencies);
      forall x: Id | HasTask(spawned, x) && x != token
        ensures scheduler.graph.tasks[x].scheduled == spawned.tasks[x].scheduled
        ensures scheduler.graph.tasks[x].listed == spawned.tasks[x].listed
        ensures scheduler.graph.tasks[x].completed == spawned.tasks[x].completed
        ensures scheduler.graph.tasks[x].phase == spawned.tasks[x].phase
      {
        assert RegisteredWith(spawned, scheduler.graph, token, dependencies, x);
      }
      assert RegisteredWith(spawned, scheduler.graph, token, dependencies, token);
      ScheduledInOrder(spawned, token);
      forall d: Id | Some(d) in dependencies ensures d in spawned.order {
        assert HasTask(before, Some(d).value) && before.tasks[Some(d).value].scheduled;
        ScheduledInOrder(spawned, d);
      }
      BeginLayered(spawned, scheduler.graph, token);
    }

    /** A task behind a delay: a second task, scheduled first, is added to its dependencies. */
    method ScheduleAfter(name: string, dependencies: seq<Option<Id>>) returns (delay: Id, token: Id)
      requires Valid() && Issued(dependencies) && |dependencies| + 1 < WORD
      modifies this, scheduler
      ensures Valid() && delay == |old(scheduler.graph).tasks| && token == delay + 1
      ensures |scheduler.graph.tasks| == token + 1
      ensures scheduler.graph.tasks[delay].scheduled && scheduler.graph.tasks[delay].listed == []
      ensures scheduler.graph.tasks[token].scheduled
      ensures scheduler.graph.tasks[token].listed == dependencies + [Some(delay)]
      ensures scheduler.graph.tasks[delay].phase == Idle && scheduler.graph.tasks[token].phase == Idle
      ensures forall x: Id :: HasTask(old(scheduler.graph), x) ==>
                && scheduler.graph.tasks[x].scheduled == old(scheduler.graph).tasks[x].scheduled
                && scheduler.graph.tasks[x].listed == old(scheduler.graph).tasks[x].listed
                && scheduler.graph.tasks[x].completed == old(scheduler.graph).tasks[x].completed
                && scheduler.graph.tasks[x].phase == old(scheduler.graph).tasks[x].phase
      ensures Resting(old(scheduler.graph)) ==> Resting(scheduler.graph)
      ensures tokens == if name in old(tokens) then old(tokens) else old(tokens)[name := token]
    {
      hide CalmInv, Layered;
      delay := ScheduleOn([]);
      var combined := dependencies + [Some(delay)];
      forall d: Option<Id> | d in combined && d.Some?
        ensures HasTask(scheduler.graph, d.value) && scheduler.graph.tasks[d.value].scheduled
      {
      }
      token := Schedule(name, combined);
    }

    /**
     `wait_for_all` waits for one token after the other.  While it blocks the workers go on, with
     whatever jobs they have, and unless the scheduler was stopped every wait comes to its end.
     */
    method WaitForAll() returns (done: bool)
      requires Valid()
      modifies scheduler`graph
      ensures Valid() && (Resting(old(scheduler.graph)) ==> Resting(scheduler.graph))
      ensures SameCalls(old(scheduler.graph), scheduler.graph)
      ensures done <==> forall name :: name in tokens ==> scheduler.graph.tasks[tokens[name]].completed
      ensures scheduler.running ==> done
      ensures !scheduler.running && Resting(old(scheduler.graph)) ==> scheduler.graph == old(scheduler.graph)
    {
      hide CalmInv, Layered, Quiet, Resting, AllComplete, SameCalls, CompletedStay;
      ghost var before := scheduler.graph;
      NothingUndone(before);
      var names := tokens.Keys;
      done := true;
      while names != {}
        invariant names <= tokens.Keys && Valid() && SameCalls(before, scheduler.graph)
        invariant done <==> forall name :: name in tokens && name !in names ==>
                                scheduler.graph.tasks[tokens[name]].completed
        invariant scheduler.running ==> done
        invariant !done || Resting(before) ==> Resting(scheduler.graph)
        invariant !scheduler.running && Resting(before) ==> scheduler.graph == before
        decreases names
      {
        var name :| name in names;
        if !scheduler.graph.tasks[tokens[name]].completed {
          ghost var blocked := scheduler.graph;
          scheduler.RunWorkers();
          NamesStay(blocked, scheduler.graph, tokens);
          SameCallsChain(before, blocked, scheduler.graph);
        }
        if !scheduler.graph.tasks[tokens[name]].completed {
          done := false;
        }
        names := names - {name};
      }
    }
  }

  lemma NamesStay(before: Graph, g: Graph, tokens: map<string, Id>)
    requires SameCalls(before, g) && Layered(before)
    requires forall name :: name in tokens ==> HasTask(before, tokens[name]) && before.tasks[tokens[name]].scheduled
    ensures Layered(g)
    ensures forall name :: name in tokens ==> HasTask(g, tokens[name]) && g.tasks[tokens[name]].scheduled
    ensures AllComplete(g) ==> forall name :: name in tokens ==> g.tasks[tokens[name]].completed
    ensures CompletedStay(before, g) ==>
              forall name :: name in tokens && before.tasks[tokens[name]].completed ==> g.tasks[tokens[name]].completed
  {
    SameLayered(before, g);
    hide Layered;
  }

  lemma Spawned(g: Graph)
    requires CalmInv(g) && Layered(g)
    ensures CalmInv(Next(g, Create)) && Layered(Next(g, Create))
    ensures |Next(g, Create).tasks| == |g.tasks| + 1 && Next(g, Create).tasks[|g.tasks|] == NewTask
    ensures forall x: Id :: HasTask(g, x) ==> Next(g, Create).tasks[x] == g.tasks[x]
  {
    hide CalmInv, Layered;
    StepKeepsCalm(g, Create);
    StepLayered(g, Create);
  }
}
