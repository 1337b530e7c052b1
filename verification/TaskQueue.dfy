/**
 The job queue: whoever may have been enqueued by whom, jobs are taken in the order in which they
 were put in.
 */
module TaskQueue {
  import opened TaskGraph
  import opened GraphBooks
  import opened TaskRuns

  /** The job a step puts into the queue, if any: the next ready task, or a task that waits for nothing. */
  function Enqueues(g: Graph, st: Step): seq<Id>
    requires Enabled(g, st)
  {
    if st.Hand? then [g.tasks[st.task].phase.ready[0]]
    else if st.EndCall? && g.calls[st.task].pending == 0 then [st.task]
    else []
  }

  function Enqueued(g: Graph, steps: seq<Step>): seq<Id>
    requires CanRun(g, steps)
    decreases |steps|
  {
    if steps == [] then [] else Enqueues(g, steps[0]) + Enqueued(Next(g, steps[0]), steps[1..])
  }

  /** The job a step takes: the one at the front. */
  function Takes(g: Graph, st: Step): seq<Id>
    requires Enabled(g, st)
  {
    if st.Dequeue? then [g.queue[0]] else []
  }

  function Taken(g: Graph, steps: seq<Step>): seq<Id>
    requires CanRun(g, steps)
    decreases |steps|
  {
    if steps == [] then [] else Takes(g, steps[0]) + Taken(Next(g, steps[0]), steps[1..])
  }

  lemma StepIsFifo(g: Graph, st: Step)
    requires Enabled(g, st)
    ensures g.queue + Enqueues(g, st) == Takes(g, st) + Next(g, st).queue
  {
    QueueMoves(g, st);
    hide Next;
    if st.Dequeue? { assert g.queue == [g.queue[0]] + g.queue[1..]; }
  }

  /** First in, first out, over any run. */
  lemma {:induction false} QueueIsFifo(g: Graph, steps: seq<Step>)
    requires CanRun(g, steps)
    ensures g.queue + Enqueued(g, steps) == Taken(g, steps) + After(g, steps).queue
    decreases |steps|
  {
    hide Next, Enabled, Enqueues, Takes;
    if steps != [] {
      var g', rest := Next(g, steps[0]), steps[1..];
      StepIsFifo(g, steps[0]);
      QueueIsFifo(g', rest);
      calc {
        g.queue + (Enqueues(g, steps[0]) + Enqueued(g', rest));
        (g.queue + Enqueues(g, steps[0])) + Enqueued(g', rest);
        (Takes(g, steps[0]) + g'.queue) + Enqueued(g', rest);
        Takes(g, steps[0]) + (g'.queue + Enqueued(g', rest));
        Takes(g, steps[0]) + (Taken(g', rest) + After(g', rest).queue);
        (Takes(g, steps[0]) + Taken(g', rest)) + After(g', rest).queue;
      }
    }
  }

  /** A body is resumed only by its own job: the log of resumptions follows the order of the jobs taken. */
  predicate Follows(log: seq<Id>, jobs: seq<Id>) {
    if log == [] then true
    else jobs != [] && (if log[|log| - 1] == jobs[|jobs| - 1] && Follows(log[..|log| - 1], jobs[..|jobs| - 1]) then true
                        else Follows(log, jobs[..|jobs| - 1]))
  }

  lemma {:induction false} FollowsOneMore(log: seq<Id>, jobs: seq<Id>, job: Id)
    requires Follows(log, jobs)
    ensures Follows(log, jobs + [job]) && Follows(log + [job], jobs + [job])
  {
    assert (jobs + [job])[..|jobs|] == jobs && (log + [job])[..|log|] == log;
  }

  lemma StepFollows(g: Graph, st: Step, jobs: seq<Id>)
    requires Enabled(g, st) && Follows(g.started, jobs)
    ensures Follows(Next(g, st).started, jobs + Takes(g, st))
  {
    if st.Dequeue? {
      FollowsOneMore(g.started, jobs, g.queue[0]);
    } else {
      TableGrows(g, st);
      assert jobs + [] == jobs;
    }
  }

  lemma {:induction false} StartsFollowJobs(g: Graph, steps: seq<Step>, jobs: seq<Id>)
    requires CanRun(g, steps) && Follows(g.started, jobs)
    ensures Follows(After(g, steps).started, jobs + Taken(g, steps))
    decreases |steps|
  {
    hide Next, Enabled, Takes, Follows;
    if steps == [] {
      assert jobs + [] == jobs;
    } else {
      StepFollows(g, steps[0], jobs);
      StartsFollowJobs(Next(g, steps[0]), steps[1..], jobs + Takes(g, steps[0]));
      assert jobs + Takes(g, steps[0]) + Taken(Next(g, steps[0]), steps[1..])
          == jobs + (Takes(g, steps[0]) + Taken(Next(g, steps[0]), steps[1..]));
    }
  }

  /** Bodies start in the order in which their jobs were enqueued. */
  lemma StartedInQueueOrder(steps: seq<Step>)
    requires CanRun(EmptyGraph, steps)
    ensures Enqueued(EmptyGraph, steps) == Taken(EmptyGraph, steps) + After(EmptyGraph, steps).queue
    ensures Follows(After(EmptyGraph, steps).started, Taken(EmptyGraph, steps))
  {
    QueueIsFifo(EmptyGraph, steps);
    StartsFollowJobs(EmptyGraph, steps, []);
    hide CanRun, After, Taken, Enqueued, Follows;
    assert [] + Enqueued(EmptyGraph, steps) == Enqueued(EmptyGraph, steps);
    assert [] + Taken(EmptyGraph, steps) == Taken(EmptyGraph, steps);
  }
}
