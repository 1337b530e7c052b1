/**
 What every run of the scheduler keeps, however steps interleave: where each dependency stands
 and where each registration comes from.
 */
module TaskOrder {
  import opened Options
  import opened TaskGraph
  import opened GraphBooks

  predicate Lists(g: Graph, x: Id, d: Id)
    requires HasTask(g, x)
  {
    Some(d) in g.tasks[x].listed
  }

  predicate IsOpen(g: Graph, d: Option<Id>) {
    d.Some? && HasTask(g, d.value) && !g.tasks[d.value].completed
  }

  predicate SomeOpen(g: Graph, tokens: seq<Option<Id>>) {
    exists d: Option<Id> :: d in tokens && IsOpen(g, d)
  }

  /** A listed dependency is completed, still to be registered, or holds the registration. */
  predicate Gate(g: Graph, x: Id, d: Id) {
    HasTask(g, x) && HasTask(g, d) && Lists(g, x, d) ==>
      || g.tasks[d].completed
      || (x in g.calls && Some(d) in g.calls[x].rest)
      || x in g.tasks[d].dependents
  }

  ghost predicate Gated(g: Graph) {
    forall x: Id, d: Id :: Gate(g, x, d)
  }

  /** A registration comes from a listed token, … */
  predicate Source(g: Graph, t: Id, x: Id) {
    HasTask(g, t) && x in g.tasks[t].dependents ==> HasTask(g, x) && Lists(g, x, t)
  }

  /** … and so does what a call has yet to register. */
  predicate CallSource(g: Graph, x: Id, d: Option<Id>) {
    x in g.calls && d in g.calls[x].rest ==> HasTask(g, x) && d in g.tasks[x].listed
  }

  ghost predicate Sourced(g: Graph) {
    && (forall t: Id, x: Id :: Source(g, t, x))
    && (forall x: Id, d: Option<Id> :: CallSource(g, x, d))
  }

  /** The log names exactly the tasks that have started. */
  ghost predicate Logged(g: Graph) {
    forall x: Id :: x in g.started <==> HasTask(g, x) && !g.tasks[x].phase.Idle?
  }

  ghost predicate GraphInv(g: Graph) {
    Books(g) && Gated(g) && Sourced(g) && Logged(g)
  }

  lemma EmptyGraphInv()
    ensures GraphInv(EmptyGraph)
  {
    assert forall x: Id :: Counted(EmptyGraph, x) && CallFits(EmptyGraph, x);
  }

  // ---------------------------------------------------------------- what the invariant says of one task

  lemma ListedIsTask(g: Graph, x: Id, d: Id)
    requires InRange(g) && HasTask(g, x) && Lists(g, x, d)
    ensures HasTask(g, d)
  {
    assert KnownTokens(g, g.tasks[x].listed);
  }

  /** An open task that holds a registration of `x` owes it to `x`. */
  lemma OpenOwes(g: Graph, x: Id, d: Id)
    requires AllShaped(g) && HasTask(g, d) && !g.tasks[d].completed && x in g.tasks[d].dependents
    ensures Owed(g, x) > 0
  {
    hide Waiting;
    assert Shaped(g.tasks[d]);
    assert Unprocessed(g.tasks[d]) == g.tasks[d].dependents;
    WaitingAt(g.tasks, d, x);
  }

  /** With nothing owed and nothing open left to register, all dependencies have completed. */
  lemma NothingOwedMeansReady(g: Graph, x: Id)
    requires GraphInv(g) && HasTask(g, x) && Owed(g, x) == 0
    requires x in g.calls ==> !SomeOpen(g, g.calls[x].rest)
    ensures !SomeOpen(g, g.tasks[x].listed)
  {
    hide Owed, AllShaped, InRange, AllCounted, Sourced, Logged;
    forall d: Option<Id> | d in g.tasks[x].listed ensures !IsOpen(g, d) {
      if IsOpen(g, d) {
        assert Lists(g, x, d.value) && Gate(g, x, d.value);
        if x in g.tasks[d.value].dependents { OpenOwes(g, x, d.value); }
      }
    }
  }

  lemma CompletedIsNotIdle(g: Graph, d: Id)
    requires AllShaped(g) && HasTask(g, d) && g.tasks[d].completed
    ensures !g.tasks[d].phase.Idle?
  {
    assert Shaped(g.tasks[d]);
  }

  // ---------------------------------------------------------------- steps

  lemma RestSplit(g: Graph, t: Id, d: Option<Id>)
    requires Enabled(g, Register(t))
    ensures d in g.calls[t].rest <==> d == g.calls[t].rest[0] || d in g.calls[t].rest[1..]
  {
    assert g.calls[t].rest == [g.calls[t].rest[0]] + g.calls[t].rest[1..];
  }

  lemma ClearedIsCompleted(g: Graph, t: Id)
    requires AllShaped(g) && Enabled(g, ClearList(t))
    ensures g.tasks[t].completed
  {
    assert Shaped(g.tasks[t]);
  }

  lemma GateStep(g: Graph, st: Step, x: Id, d: Id)
    requires AllShaped(g) && InRange(g) && Enabled(g, st) && Gate(g, x, d)
    ensures Gate(Next(g, st), x, d)
  {
    hide Next, AllShaped, InRange;
    CallStep(g, st, x);
    if HasTask(g, x) {
      TaskStep(g, st, x);
      if HasTask(g, d) {
        TaskStep(g, st, d);
        if st.ClearList? { ClearedIsCompleted(g, st.task); }
        if st.Register? { RestSplit(g, st.task, Some(d)); }
      } else if HasTask(Next(g, st), d) {
        NewTaskStep(g, st, d);
        if Lists(g, x, d) { ListedIsTask(g, x, d); }
      }
    } else if HasTask(Next(g, st), x) {
      NewTaskStep(g, st, x);
    }
  }

  lemma UnscheduledListsNothing(g: Graph, x: Id)
    requires AllShaped(g) && HasTask(g, x) && !g.tasks[x].scheduled
    ensures g.tasks[x].listed == []
  {
    assert Shaped(g.tasks[x]);
  }

  lemma SourceStep(g: Graph, st: Step, t: Id, x: Id)
    requires AllShaped(g) && Enabled(g, st) && Source(g, t, x)
    requires st.Register? ==> CallSource(g, st.task, g.calls[st.task].rest[0])
    ensures Source(Next(g, st), t, x)
  {
    hide Next, AllShaped;
    if HasTask(g, t) {
      TaskStep(g, st, t);
      if HasTask(g, x) {
        TaskStep(g, st, x);
        if st.Begin? && st.task == x { UnscheduledListsNothing(g, x); }
      }
    } else if HasTask(Next(g, st), t) {
      NewTaskStep(g, st, t);
    }
  }

  lemma CallSourceStep(g: Graph, st: Step, x: Id, d: Option<Id>)
    requires CallFits(g, x) && Enabled(g, st) && CallSource(g, x, d)
    ensures CallSource(Next(g, st), x, d)
  {
    hide Next, Owed;
    CallStep(g, st, x);
    if st.Register? { RestSplit(g, st.task, d); }
    if HasTask(g, x) { TaskStep(g, st, x); }
  }

  lemma LogStep(g: Graph, st: Step)
    requires AllShaped(g) && InRange(g) && Logged(g) && Enabled(g, st)
    ensures Logged(Next(g, st))
  {
    var g' := Next(g, st);
    StartedLog(g, st);
    TableGrows(g, st);
    hide Next, AllShaped, InRange, Logged;
    forall x: Id ensures x in g'.started <==> HasTask(g', x) && !g'.tasks[x].phase.Idle? {
      StartedBefore(g, x);
      if HasTask(g, x) {
        TaskStep(g, st, x);
        if st.Dequeue? && g.queue[0] == x { DequeuedIsLogged(g); }
      } else if HasTask(g', x) {
        NewTaskStep(g, st, x);
      }
    }
  }

  lemma StartedBefore(g: Graph, x: Id)
    requires Logged(g)
    ensures x in g.started <==> HasTask(g, x) && !g.tasks[x].phase.Idle?
  {
  }

  lemma StartedLog(g: Graph, st: Step)
    requires Enabled(g, st)
    ensures !st.Dequeue? ==> Next(g, st).started == g.started
    ensures st.Dequeue? ==>
              Next(g, st).started ==
                if g.tasks[g.queue[0]].phase.Idle? || g.tasks[g.queue[0]].phase.Running?
                then g.started + [g.queue[0]] else g.started
  {
  }

  lemma DequeuedIsLogged(g: Graph)
    requires Logged(g) && Enabled(g, Dequeue)
    ensures g.queue[0] in Next(g, Dequeue).started
  {
    StartedLog(g, Dequeue);
    StartedBefore(g, g.queue[0]);
  }

  lemma NextRestSourced(g: Graph, t: Id)
    requires Sourced(g) && Enabled(g, Register(t))
    ensures CallSource(g, t, g.calls[t].rest[0])
  {
  }

  /** Every step of every run keeps the invariant. */
  lemma StepKeepsInv(g: Graph, st: Step)
    requires GraphInv(g) && Enabled(g, st)
    ensures GraphInv(Next(g, st))
  {
    hide Next, Enabled, Logged, Gate, Source, CallSource, AllShaped, InRange, Counted, CallFits;
    StepKeepsBooks(g, st);
    LogStep(g, st);
    forall x: Id, d: Id ensures Gate(Next(g, st), x, d) { GateStep(g, st, x, d); }
    forall t: Id, x: Id ensures Source(Next(g, st), t, x) {
      if st.Register? { NextRestSourced(g, st.task); }
      SourceStep(g, st, t, x);
    }
    forall x: Id, d: Option<Id> ensures CallSource(Next(g, st), x, d) { CallSourceStep(g, st, x, d); }
  }
}
