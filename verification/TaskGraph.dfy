/**
 The dependency graph of the task scheduler, one lock-protected section or atomic operation at a
 time.  A call of `schedule` is a series of steps: it appends the new task to the dependent list
 of a dependency (`Register`) and only afterwards raises the new task's counter (`Count`).  A
 finished task sets its flag, walks its dependent list lowering one counter per step, and then
 enqueues the tasks whose counter it brought to zero.
 */
module TaskGraph {
  import opened Options

  type Id = nat

  const WORD: nat := 0x1_0000_0000

  type Counter = n: nat | n < WORD

  /** Where the coroutine of a task stands. */
  datatype Phase =
    | Idle
    | Running
    | Flagged
    | Releasing(cursor: nat, ready: seq<Id>)
    | Handing(ready: seq<Id>)
    | Done

  /** `listed` and `scheduled` are history: the tokens `schedule` was called with. */
  datatype Task = Task(
    phase: Phase,
    completed: bool,
    counter: Counter,
    dependents: seq<Id>,
    scheduled: bool,
    listed: seq<Option<Id>>)

  const NewTask := Task(Idle, false, 0, [], false, [])

  /** A call of `schedule` under way; `uncounted` holds between registering and counting. */
  datatype Call = Call(rest: seq<Option<Id>>, uncounted: bool, pending: Counter)

  /**
   `started` records every resumption of a task body and `order` the calls of `schedule`.  A job
   resumes any coroutine that is not done, so a second job of a running task resumes it once more,
   and what the program does after that is undefined; a job of a finished task is dropped.
   */
  datatype Graph = Graph(
    tasks: seq<Task>,
    queue: seq<Id>,
    calls: map<Id, Call>,
    started: seq<Id>,
    order: seq<Id>)

  const EmptyGraph := Graph([], [], map[], [], [])

  datatype Step =
    | Create
    | Begin(task: Id, dependencies: seq<Option<Id>>)
    | Register(task: Id)
    | Count(task: Id)
    | EndCall(task: Id)
    | Dequeue
    | Complete(task: Id)
    | StartRelease(task: Id)
    | Release(task: Id)
    | ClearList(task: Id)
    | Hand(task: Id)
    | Retire(task: Id)

  predicate KnownTokens(g: Graph, dependencies: seq<Option<Id>>) {
    forall d: Option<Id> :: d in dependencies && d.Some? ==> d.value < |g.tasks|
  }

  predicate Enabled(g: Graph, st: Step) {
    match st
    case Create => true
    case Begin(t, deps) =>
      t < |g.tasks| && !g.tasks[t].scheduled && KnownTokens(g, deps) && |deps| < WORD
    case Register(t) => t in g.calls && !g.calls[t].uncounted && g.calls[t].rest != []
                        && (g.calls[t].rest[0].Some? ==> g.calls[t].rest[0].value < |g.tasks|)
    case Count(t) => t in g.calls && g.calls[t].uncounted && t < |g.tasks|
    case EndCall(t) => t in g.calls && !g.calls[t].uncounted && g.calls[t].rest == []
    case Dequeue => g.queue != [] && g.queue[0] < |g.tasks|
    case Complete(t) => t < |g.tasks| && g.tasks[t].phase == Running
    case StartRelease(t) => t < |g.tasks| && g.tasks[t].phase == Flagged
    case Release(t) =>
      && t < |g.tasks| && g.tasks[t].phase.Releasing?
      && g.tasks[t].phase.cursor < |g.tasks[t].dependents|
      && g.tasks[t].dependents[g.tasks[t].phase.cursor] < |g.tasks|
    case ClearList(t) =>
      && t < |g.tasks| && g.tasks[t].phase.Releasing?
      && g.tasks[t].phase.cursor == |g.tasks[t].dependents|
    case Hand(t) => t < |g.tasks| && g.tasks[t].phase.Handing? && g.tasks[t].phase.ready != []
    case Retire(t) => t < |g.tasks| && g.tasks[t].phase == Handing([])
  }

  function Put(g: Graph, t: Id, task: Task): Graph
    requires t < |g.tasks|
  {
    g.(tasks := g.tasks[t := task])
  }

  /** `fetch_sub(1)` and `fetch_add(1)` on an unsigned word. */
  function Lowered(c: Counter): Counter {
    if c == 0 then WORD - 1 else c - 1
  }

  function Raised(c: Counter): Counter {
    if c + 1 == WORD then 0 else c + 1
  }

  function RegisterNext(g: Graph, t: Id): Graph
    requires Enabled(g, Register(t))
  {
    var call := g.calls[t];
    var shorter := call.(rest := call.rest[1..]);
    match call.rest[0]
    case None => g.(calls := g.calls[t := shorter])
    case Some(d) =>
      if g.tasks[d].completed then g.(calls := g.calls[t := shorter])
      else
        Put(g.(calls := g.calls[t := shorter.(uncounted := true)]), d,
            g.tasks[d].(dependents := g.tasks[d].dependents + [t]))
  }

  function ReleaseNext(g: Graph, t: Id): Graph
    requires Enabled(g, Release(t))
  {
    var Releasing(cursor, ready) := g.tasks[t].phase;
    var x := g.tasks[t].dependents[cursor];
    var before := g.tasks[x].counter;
    var lowered := Put(g, x, g.tasks[x].(counter := Lowered(before)));
    Put(lowered, t, lowered.tasks[t].(phase := Releasing(cursor + 1, if before == 1 then ready + [x] else ready)))
  }

  function Next(g: Graph, st: Step): Graph
    requires Enabled(g, st)
  {
    match st
    case Create => g.(tasks := g.tasks + [NewTask])
    case Begin(t, deps) =>
      Put(g.(calls := g.calls[t := Call(deps, false, 0)], order := g.order + [t]), t,
          g.tasks[t].(scheduled := true, listed := deps))
    case Register(t) => RegisterNext(g, t)
    case Count(t) =>
      var call := g.calls[t];
      Put(g.(calls := g.calls[t := Call(call.rest, false, Raised(call.pending))]), t,
          g.tasks[t].(counter := Raised(g.tasks[t].counter)))
    case EndCall(t) =>
      g.(calls := g.calls - {t}, queue := if g.calls[t].pending == 0 then g.queue + [t] else g.queue)
    case Dequeue =>
      var t := g.queue[0];
      var popped := g.(queue := g.queue[1..]);
      match g.tasks[t].phase {
        case Idle => Put(popped, t, g.tasks[t].(phase := Running)).(started := g.started + [t])
        case Running => popped.(started := g.started + [t])
        case _ => popped
      }
    case Complete(t) => Put(g, t, g.tasks[t].(phase := Flagged, completed := true))
    case StartRelease(t) => Put(g, t, g.tasks[t].(phase := Releasing(0, [])))
    case Release(t) => ReleaseNext(g, t)
    case ClearList(t) =>
      Put(g, t, g.tasks[t].(phase := Handing(g.tasks[t].phase.ready), dependents := []))
    case Hand(t) =>
      var ready := g.tasks[t].phase.ready;
      Put(g.(queue := g.queue + [ready[0]]), t, g.tasks[t].(phase := Handing(ready[1..])))
    case Retire(t) => Put(g, t, g.tasks[t].(phase := Done))
  }

  /** The task whose registration `Release` processes. */
  function Released(g: Graph, st: Step): Id
    requires Enabled(g, st) && st.Release?
  {
    g.tasks[st.task].dependents[g.tasks[st.task].phase.cursor]
  }

  /** The released task is not in the middle of its own call of `schedule`. */
  predicate Calm(g: Graph, st: Step)
    requires Enabled(g, st)
  {
    st.Release? ==> Released(g, st) !in g.calls
  }

  // ---------------------------------------------------------------- what is still owed

  /** Registrations that the owner of the list has not processed yet. */
  function Unprocessed(task: Task): seq<Id> {
    if task.phase.Releasing? && task.phase.cursor <= |task.dependents| then task.dependents[task.phase.cursor..]
    else task.dependents
  }

  function Ready(task: Task): seq<Id> {
    if task.phase.Releasing? || task.phase.Handing? then task.phase.ready else []
  }

  ghost function Waiting(tasks: seq<Task>): multiset<Id> {
    if tasks == [] then multiset{} else multiset(Unprocessed(tasks[0])) + Waiting(tasks[1..])
  }

  ghost function Readied(tasks: seq<Task>): multiset<Id> {
    if tasks == [] then multiset{} else multiset(Ready(tasks[0])) + Readied(tasks[1..])
  }

  lemma {:induction false} WaitingPut(tasks: seq<Task>, i: nat, task: Task, x: Id)
    requires i < |tasks|
    ensures Waiting(tasks[i := task])[x] + multiset(Unprocessed(tasks[i]))[x]
         == Waiting(tasks)[x] + multiset(Unprocessed(task))[x]
  {
    hide Unprocessed;
    if i == 0 {
      assert tasks[i := task][1..] == tasks[1..];
    } else {
      assert tasks[i := task][1..] == tasks[1..][i - 1 := task];
      WaitingPut(tasks[1..], i - 1, task, x);
    }
  }

  lemma {:induction false} ReadiedPut(tasks: seq<Task>, i: nat, task: Task, x: Id)
    requires i < |tasks|
    ensures Readied(tasks[i := task])[x] + multiset(Ready(tasks[i]))[x]
         == Readied(tasks)[x] + multiset(Ready(task))[x]
  {
    hide Ready;
    if i == 0 {
      assert tasks[i := task][1..] == tasks[1..];
    } else {
      assert tasks[i := task][1..] == tasks[1..][i - 1 := task];
      ReadiedPut(tasks[1..], i - 1, task, x);
    }
  }

  lemma {:induction false} AppendNew(tasks: seq<Task>, x: Id)
    ensures Waiting(tasks + [NewTask])[x] == Waiting(tasks)[x]
    ensures Readied(tasks + [NewTask])[x] == Readied(tasks)[x]
  {
    if tasks == [] {
      assert [NewTask][1..] == [];
    } else {
      assert (tasks + [NewTask])[1..] == tasks[1..] + [NewTask];
      AppendNew(tasks[1..], x);
    }
  }

  lemma {:induction false} WaitingAt(tasks: seq<Task>, i: nat, x: Id)
    requires i < |tasks|
    ensures Waiting(tasks)[x] >= multiset(Unprocessed(tasks[i]))[x]
  {
    hide Unprocessed;
    if i > 0 { WaitingAt(tasks[1..], i - 1, x); }
  }

  lemma {:induction false} ReadiedAt(tasks: seq<Task>, i: nat, x: Id)
    requires i < |tasks|
    ensures Readied(tasks)[x] >= multiset(Ready(tasks[i]))[x]
  {
    hide Ready;
    if i > 0 { ReadiedAt(tasks[1..], i - 1, x); }
  }

  lemma {:induction false} WaitingFrom(tasks: seq<Task>, x: Id)
    ensures Waiting(tasks)[x] > 0 ==> exists i :: 0 <= i < |tasks| && x in Unprocessed(tasks[i])
  {
    hide Unprocessed;
    if tasks != [] && Waiting(tasks)[x] > 0 {
      if x !in Unprocessed(tasks[0]) {
        WaitingFrom(tasks[1..], x);
        var i :| 0 <= i < |tasks[1..]| && x in Unprocessed(tasks[1..][i]);
        assert tasks[1..][i] == tasks[i + 1];
      }
    }
  }

  lemma {:induction false} ReadiedFrom(tasks: seq<Task>, x: Id)
    ensures Readied(tasks)[x] > 0 ==> exists i :: 0 <= i < |tasks| && x in Ready(tasks[i])
  {
    hide Ready;
    if tasks != [] && Readied(tasks)[x] > 0 {
      if x !in Ready(tasks[0]) {
        ReadiedFrom(tasks[1..], x);
        var i :| 0 <= i < |tasks[1..]| && x in Ready(tasks[1..][i]);
        assert tasks[1..][i] == tasks[i + 1];
      }
    }
  }
}
