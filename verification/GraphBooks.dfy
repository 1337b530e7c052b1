/**
 What every step keeps, whichever calls of `schedule` it interrupts: a counter is, modulo the word
 size, the number of registrations still to be processed, but for one not counted yet; and start
 jobs are made by a last release or by a call that registered nothing, and by nothing else.
 */
module GraphBooks {
  import opened Options
  import opened TaskGraph

  // ---------------------------------------------------------------- effect of one step on the sums

  function Registers(g: Graph, st: Step): bool
    requires Enabled(g, st)
  {
    st.Register? && g.calls[st.task].rest[0].Some? && !g.tasks[g.calls[st.task].rest[0].value].completed
  }

  function One(b: bool): nat {
    if b then 1 else 0
  }

  lemma HeadOff(s: seq<Id>, c: nat, y: Id)
    requires c < |s|
    ensures multiset(s[c..])[y] == multiset(s[c + 1..])[y] + One(y == s[c])
  {
    assert s[c..] == [s[c]] + s[c + 1..];
  }

  lemma LastOn(s: seq<Id>, x: Id, y: Id)
    ensures multiset(s + [x])[y] == multiset(s)[y] + One(y == x)
  {
  }

  lemma PutKeeps(tasks: seq<Task>, i: nat, task: Task, y: Id)
    requires i < |tasks|
    requires Unprocessed(task) == Unprocessed(tasks[i]) && Ready(task) == Ready(tasks[i])
    ensures Waiting(tasks[i := task])[y] == Waiting(tasks)[y]
    ensures Readied(tasks[i := task])[y] == Readied(tasks)[y]
  {
    hide *;
    WaitingPut(tasks, i, task, y);
    ReadiedPut(tasks, i, task, y);
  }

  lemma RegisterEffect(g: Graph, t: Id, y: Id)
    requires Enabled(g, Register(t))
    requires forall d :: 0 <= d < |g.tasks| && g.tasks[d].phase.Releasing? ==>
               g.tasks[d].phase.cursor <= |g.tasks[d].dependents|
    ensures Waiting(Next(g, Register(t)).tasks)[y] == Waiting(g.tasks)[y] + One(Registers(g, Register(t)) && y == t)
    ensures Readied(Next(g, Register(t)).tasks)[y] == Readied(g.tasks)[y]
  {
    if Registers(g, Register(t)) {
      var d := g.calls[t].rest[0].value;
      var task := g.tasks[d].(dependents := g.tasks[d].dependents + [t]);
      assert Next(g, Register(t)).tasks == g.tasks[d := task];
      OneMoreDependent(g.tasks[d], t, y);
      hide *;
      WaitingPut(g.tasks, d, task, y);
      ReadiedPut(g.tasks, d, task, y);
    }
  }

  lemma OneMoreDependent(task: Task, t: Id, y: Id)
    requires task.phase.Releasing? ==> task.phase.cursor <= |task.dependents|
    ensures var more := task.(dependents := task.dependents + [t]);
            && multiset(Unprocessed(more))[y] == multiset(Unprocessed(task))[y] + One(y == t)
            && Ready(more) == Ready(task)
  {
    var more := task.(dependents := task.dependents + [t]);
    assert Unprocessed(more) == Unprocessed(task) + [t];
    LastOn(Unprocessed(task), t, y);
  }

  /** The task `t` after it has processed the registration under its cursor. */
  function Advanced(g: Graph, t: Id): Task
    requires Enabled(g, Release(t))
  {
    var Releasing(cursor, ready) := g.tasks[t].phase;
    var x := Released(g, Release(t));
    LoweredGraph(g, t).tasks[t].(
      phase := Releasing(cursor + 1, if g.tasks[x].counter == 1 then ready + [x] else ready))
  }

  /** The graph between lowering the counter and moving the cursor. */
  function LoweredGraph(g: Graph, t: Id): (lowered: Graph)
    requires Enabled(g, Release(t))
    ensures |lowered.tasks| == |g.tasks|
  {
    var x := Released(g, Release(t));
    Put(g, x, g.tasks[x].(counter := Lowered(g.tasks[x].counter)))
  }

  lemma ReleaseShape(g: Graph, t: Id)
    requires Enabled(g, Release(t))
    ensures Next(g, Release(t)).tasks == LoweredGraph(g, t).tasks[t := Advanced(g, t)]
    ensures Unprocessed(LoweredGraph(g, t).tasks[t]) == g.tasks[t].dependents[g.tasks[t].phase.cursor..]
    ensures Unprocessed(Advanced(g, t)) == g.tasks[t].dependents[g.tasks[t].phase.cursor + 1..]
    ensures Ready(LoweredGraph(g, t).tasks[t]) == g.tasks[t].phase.ready
    ensures var x := Released(g, Release(t));
            Ready(Advanced(g, t)) == g.tasks[t].phase.ready + (if g.tasks[x].counter == 1 then [x] else [])
  {
  }

  lemma LoweredKeeps(g: Graph, t: Id, y: Id)
    requires Enabled(g, Release(t))
    ensures Waiting(LoweredGraph(g, t).tasks)[y] == Waiting(g.tasks)[y]
    ensures Readied(LoweredGraph(g, t).tasks)[y] == Readied(g.tasks)[y]
  {
    hide Waiting, Readied;
    var x := Released(g, Release(t));
    PutKeeps(g.tasks, x, g.tasks[x].(counter := Lowered(g.tasks[x].counter)), y);
  }

  lemma ReleaseEffect(g: Graph, t: Id, y: Id)
    requires Enabled(g, Release(t))
    ensures var x := Released(g, Release(t));
            && Waiting(Next(g, Release(t)).tasks)[y] + One(y == x) == Waiting(g.tasks)[y]
            && Readied(Next(g, Release(t)).tasks)[y] == Readied(g.tasks)[y] + One(y == x && g.tasks[x].counter == 1)
  {
    hide Unprocessed, Ready, Waiting, Readied, Next, LoweredGraph, Advanced;
    ReleaseShape(g, t);
    HeadOff(g.tasks[t].dependents, g.tasks[t].phase.cursor, y);
    LastOn(g.tasks[t].phase.ready, Released(g, Release(t)), y);
    LoweredKeeps(g, t, y);
    WaitingPut(LoweredGraph(g, t).tasks, t, Advanced(g, t), y);
    ReadiedPut(LoweredGraph(g, t).tasks, t, Advanced(g, t), y);
  }

  /** The task `t` after it has handed over the first of its ready tasks. */
  function HandedOn(g: Graph, t: Id): Task
    requires Enabled(g, Hand(t))
  {
    g.tasks[t].(phase := Handing(g.tasks[t].phase.ready[1..]))
  }

  lemma HandShape(g: Graph, t: Id)
    requires Enabled(g, Hand(t))
    ensures Next(g, Hand(t)).tasks == g.tasks[t := HandedOn(g, t)]
    ensures Unprocessed(g.tasks[t]) == Unprocessed(HandedOn(g, t))
    ensures Ready(g.tasks[t]) == [g.tasks[t].phase.ready[0]] + Ready(HandedOn(g, t))
  {
    hide Waiting, Readied;
  }

  lemma FirstOff(x: Id, s: seq<Id>, y: Id)
    ensures multiset([x] + s)[y] == multiset(s)[y] + One(y == x)
  {
  }

  lemma HandEffect(g: Graph, t: Id, y: Id)
    requires Enabled(g, Hand(t))
    ensures Waiting(Next(g, Hand(t)).tasks)[y] == Waiting(g.tasks)[y]
    ensures Readied(Next(g, Hand(t)).tasks)[y] + One(y == g.tasks[t].phase.ready[0]) == Readied(g.tasks)[y]
  {
    hide Unprocessed, Ready, Waiting, Readied, Next, HandedOn;
    HandShape(g, t);
    FirstOff(g.tasks[t].phase.ready[0], Ready(HandedOn(g, t)), y);
    WaitingPut(g.tasks, t, HandedOn(g, t), y);
    ReadiedPut(g.tasks, t, HandedOn(g, t), y);
  }

  lemma QuietEffect(g: Graph, st: Step, y: Id)
    requires Enabled(g, st) && !st.Register? && !st.Release? && !st.Hand?
    requires st.ClearList?
          || forall t :: 0 <= t < |g.tasks| && g.tasks[t].phase.Handing? ==> g.tasks[t].dependents == []
    ensures Waiting(Next(g, st).tasks)[y] == Waiting(g.tasks)[y]
    ensures Readied(Next(g, st).tasks)[y] == Readied(g.tasks)[y]
  {
    match st
    case Create => AppendNew(g.tasks, y);
    case EndCall(_) =>
    case Dequeue =>
      var t := g.queue[0];
      if g.tasks[t].phase == Idle { PutKeeps(g.tasks, t, g.tasks[t].(phase := Running), y); }
    case Begin(t, _) => PutKeeps(g.tasks, t, Next(g, st).tasks[t], y);
    case Count(t) => PutKeeps(g.tasks, t, Next(g, st).tasks[t], y);
    case Complete(t) => PutKeeps(g.tasks, t, Next(g, st).tasks[t], y);
    case StartRelease(t) => PutKeeps(g.tasks, t, Next(g, st).tasks[t], y);
    case ClearList(t) => PutKeeps(g.tasks, t, Next(g, st).tasks[t], y);
    case Retire(t) => PutKeeps(g.tasks, t, Next(g, st).tasks[t], y);
  }

  // ---------------------------------------------------------------- the invariant

  predicate HasTask(g: Graph, x: Id) {
    x < |g.tasks|
  }

  /** Flags, phases and lists of each task fit together. */
  predicate Shaped(task: Task) {
    && (task.completed <==> !task.phase.Idle? && !task.phase.Running?)
    && (task.phase.Releasing? ==> task.phase.cursor <= |task.dependents|)
    && (task.phase.Handing? || task.phase.Done? ==> task.dependents == [])
    && |task.listed| < WORD
    && (!task.scheduled ==> task.listed == [])
  }

  ghost predicate AllShaped(g: Graph) {
    forall t :: 0 <= t < |g.tasks| ==> Shaped(g.tasks[t])
  }

  predicate Names(g: Graph, ids: seq<Id>) {
    forall x :: x in ids ==> HasTask(g, x)
  }

  ghost predicate InRange(g: Graph) {
    && Names(g, g.queue)
    && (forall t :: 0 <= t < |g.tasks| ==>
          Names(g, g.tasks[t].dependents) && Names(g, Ready(g.tasks[t])) && KnownTokens(g, g.tasks[t].listed))
    && (forall x :: x in g.calls ==> HasTask(g, x) && KnownTokens(g, g.calls[x].rest))
  }

  function Uncounted(g: Graph, x: Id): nat {
    One(x in g.calls && g.calls[x].uncounted)
  }

  ghost function Owed(g: Graph, x: Id): nat {
    Waiting(g.tasks)[x]
  }

  /** Start jobs of `x`: queued, about to be queued, or already taken by a worker. */
  ghost function Starts(g: Graph, x: Id): nat
    requires HasTask(g, x)
  {
    multiset(g.queue)[x] + Readied(g.tasks)[x] + One(!g.tasks[x].phase.Idle?)
  }

  /** A counter `c` and `u` uncounted registrations make up `owed`, modulo the word size. */
  predicate Agrees(c: Counter, u: nat, owed: nat) {
    (c + u) % WORD == owed
  }

  /**
   In every run the counter is, modulo the word size, the number of unprocessed registrations,
   but for one that is not counted yet.
   */
  ghost predicate Counted(g: Graph, x: Id) {
    HasTask(g, x) ==>
      && Agrees(g.tasks[x].counter, Uncounted(g, x), Owed(g, x)) && Owed(g, x) <= |g.tasks[x].listed|
      && (Starts(g, x) > 0 ==> g.tasks[x].scheduled)
  }

  /** A call under way remembers what it registered; some of it may have been processed already. */
  ghost predicate CallFits(g: Graph, x: Id) {
    x in g.calls ==>
      && HasTask(g, x) && g.tasks[x].scheduled
      && Owed(g, x) <= g.calls[x].pending + Uncounted(g, x)
      && g.calls[x].pending + Uncounted(g, x) + |g.calls[x].rest| <= |g.tasks[x].listed|
  }

  ghost predicate AllCounted(g: Graph) {
    forall x: Id :: Counted(g, x) && CallFits(g, x)
  }

  ghost predicate Books(g: Graph) {
    AllShaped(g) && InRange(g) && AllCounted(g)
  }

  /** Everything `AllShaped` and `InRange` ask of one task, in a graph of `n` tasks. */
  ghost predicate Tidy(task: Task, n: nat) {
    && Shaped(task)
    && (forall x :: x in task.dependents || x in Ready(task) ==> x < n)
    && (forall d: Option<Id> :: d in task.listed && d.Some? ==> d.value < n)
  }

  lemma PutTidy(g: Graph, g': Graph, t: Id, task: Task)
    requires AllShaped(g) && InRange(g) && t < |g.tasks| && Tidy(task, |g.tasks|)
    requires g'.tasks == g.tasks[t := task] && Names(g', g'.queue)
    requires forall x :: x in g'.calls ==> HasTask(g', x) && KnownTokens(g', g'.calls[x].rest)
    ensures AllShaped(g') && InRange(g')
  {
    hide Shaped, Ready;
  }

  lemma RegisterTidy(g: Graph, t: Id)
    requires AllShaped(g) && InRange(g) && Enabled(g, Register(t))
    ensures AllShaped(Next(g, Register(t))) && InRange(Next(g, Register(t)))
  {
    var g' := Next(g, Register(t));
    assert forall d :: d in g'.calls[t].rest ==> d in g.calls[t].rest;
    if Registers(g, Register(t)) {
      var d := g.calls[t].rest[0].value;
      hide Waiting;
      PutTidy(g, g', d, g'.tasks[d]);
    }
  }

  lemma ReleaseTidy(g: Graph, t: Id)
    requires AllShaped(g) && InRange(g) && Enabled(g, Release(t))
    ensures AllShaped(Next(g, Release(t))) && InRange(Next(g, Release(t)))
  {
    var x := Released(g, Release(t));
    var lowered := Put(g, x, g.tasks[x].(counter := Lowered(g.tasks[x].counter)));
    PutTidy(g, lowered, x, lowered.tasks[x]);
    var g' := Next(g, Release(t));
    assert lowered.tasks[t].phase == g.tasks[t].phase && lowered.tasks[t].dependents == g.tasks[t].dependents;
    assert Ready(lowered.tasks[t]) == g.tasks[t].phase.ready;
    assert x in lowered.tasks[t].dependents;
    assert Tidy(g'.tasks[t], |g.tasks|);
    PutTidy(lowered, g', t, g'.tasks[t]);
  }

  lemma CreateTidy(g: Graph)
    requires AllShaped(g) && InRange(g)
    ensures AllShaped(Next(g, Create)) && InRange(Next(g, Create))
  {
    var g' := Next(g, Create);
    assert forall t :: 0 <= t < |g.tasks| ==> g'.tasks[t] == g.tasks[t];
    assert g'.tasks[|g.tasks|] == NewTask;
  }

  lemma DequeueTidy(g: Graph)
    requires AllShaped(g) && InRange(g) && Enabled(g, Dequeue)
    ensures AllShaped(Next(g, Dequeue)) && InRange(Next(g, Dequeue))
  {
    var t := g.queue[0];
    assert forall x :: x in g.queue[1..] ==> x in g.queue;
    if g.tasks[t].phase == Idle {
      PutTidy(g, Next(g, Dequeue), t, Next(g, Dequeue).tasks[t]);
    }
  }

  lemma HandTidy(g: Graph, t: Id)
    requires AllShaped(g) && InRange(g) && Enabled(g, Hand(t))
    ensures AllShaped(Next(g, Hand(t))) && InRange(Next(g, Hand(t)))
  {
    var ready := g.tasks[t].phase.ready;
    assert Ready(g.tasks[t]) == ready && Names(g, Ready(g.tasks[t]));
    assert ready[0] in ready && forall x :: x in ready[1..] ==> x in ready;
    PutTidy(g, Next(g, Hand(t)), t, Next(g, Hand(t)).tasks[t]);
  }

  lemma CallTidy(g: Graph, st: Step)
    requires AllShaped(g) && InRange(g) && Enabled(g, st) && (st.Begin? || st.Count? || st.EndCall?)
    ensures AllShaped(Next(g, st)) && InRange(Next(g, st))
  {
    if !st.EndCall? { PutTidy(g, Next(g, st), st.task, Next(g, st).tasks[st.task]); }
  }

  lemma PhaseTidy(g: Graph, st: Step)
    requires AllShaped(g) && InRange(g) && Enabled(g, st)
    requires st.Complete? || st.StartRelease? || st.ClearList? || st.Retire?
    ensures AllShaped(Next(g, st)) && InRange(Next(g, st))
  {
    PutTidy(g, Next(g, st), st.task, Next(g, st).tasks[st.task]);
  }

  lemma StepTidy(g: Graph, st: Step)
    requires AllShaped(g) && InRange(g) && Enabled(g, st)
    ensures AllShaped(Next(g, st)) && InRange(Next(g, st))
  {
    hide AllShaped, InRange, Next, Enabled;
    match st
    case Create => CreateTidy(g);
    case Register(t) => RegisterTidy(g, t);
    case Dequeue => DequeueTidy(g);
    case Release(t) => ReleaseTidy(g, t);
    case Hand(t) => HandTidy(g, t);
    case Begin(_, _) => CallTidy(g, st);
    case Count(_) => CallTidy(g, st);
    case EndCall(_) => CallTidy(g, st);
    case Complete(_) => PhaseTidy(g, st);
    case StartRelease(_) => PhaseTidy(g, st);
    case ClearList(_) => PhaseTidy(g, st);
    case Retire(_) => PhaseTidy(g, st);
  }

  // ---------------------------------------------------------------- one task across one step

  predicate IsFinish(st: Step) {
    st.Complete? || st.StartRelease? || st.ClearList? || st.Hand? || st.Retire?
  }

  /** Everything a step may do to the record of the task `x`. */
  ghost predicate TaskEvolves(g: Graph, st: Step, g': Graph, x: Id)
    requires Enabled(g, st) && HasTask(g, x)
  {
    && HasTask(g', x)
    && g'.tasks[x].listed == (if st.Begin? && st.task == x then st.dependencies else g.tasks[x].listed)
    && (g'.tasks[x].scheduled <==> g.tasks[x].scheduled || (st.Begin? && st.task == x))
    && (g'.tasks[x].completed <==> g.tasks[x].completed || (st.Complete? && st.task == x))
    && (g'.tasks[x].phase.Idle? <==> g.tasks[x].phase.Idle? && !(st.Dequeue? && g.queue[0] == x))
    && (!st.Dequeue? && !((IsFinish(st) || st.Release?) && st.task == x) ==> g'.tasks[x].phase == g.tasks[x].phase)
    && g'.tasks[x].counter ==
         (if st.Count? && st.task == x then Raised(g.tasks[x].counter)
          else if st.Release? && Released(g, st) == x then Lowered(g.tasks[x].counter)
          else g.tasks[x].counter)
    && g'.tasks[x].dependents ==
         (if Registers(g, st) && g.calls[st.task].rest[0] == Some(x) then g.tasks[x].dependents + [st.task]
          else if st.ClearList? && st.task == x then []
          else g.tasks[x].dependents)
  }

  lemma CallTask(g: Graph, st: Step, x: Id)
    requires Enabled(g, st) && HasTask(g, x) && (st.Create? || st.Begin? || st.Count? || st.EndCall?)
    ensures TaskEvolves(g, st, Next(g, st), x)
  {
  }

  lemma RegisterTask(g: Graph, t: Id, x: Id)
    requires Enabled(g, Register(t)) && HasTask(g, x)
    ensures TaskEvolves(g, Register(t), Next(g, Register(t)), x)
  {
  }

  lemma ReleaseTask(g: Graph, t: Id, x: Id)
    requires Enabled(g, Release(t)) && HasTask(g, x)
    ensures TaskEvolves(g, Release(t), Next(g, Release(t)), x)
  {
  }

  lemma DequeueTask(g: Graph, x: Id)
    requires Enabled(g, Dequeue) && HasTask(g, x)
    ensures TaskEvolves(g, Dequeue, Next(g, Dequeue), x)
  {
  }

  lemma FinishTask(g: Graph, st: Step, x: Id)
    requires Enabled(g, st) && HasTask(g, x) && IsFinish(st)
    ensures TaskEvolves(g, st, Next(g, st), x)
  {
  }

  lemma TaskStep(g: Graph, st: Step, x: Id)
    requires Enabled(g, st) && HasTask(g, x)
    ensures TaskEvolves(g, st, Next(g, st), x)
  {
    hide TaskEvolves, Next, Enabled;
    match st
    case Register(t) => RegisterTask(g, t, x);
    case Release(t) => ReleaseTask(g, t, x);
    case Dequeue => DequeueTask(g, x);
    case Create => CallTask(g, st, x);
    case Begin(_, _) => CallTask(g, st, x);
    case Count(_) => CallTask(g, st, x);
    case EndCall(_) => CallTask(g, st, x);
    case _ => FinishTask(g, st, x);
  }

  /** One call across one step. */
  lemma CallStep(g: Graph, st: Step, x: Id)
    requires Enabled(g, st)
    ensures x in Next(g, st).calls <==> (x in g.calls && !(st.EndCall? && st.task == x)) || (st.Begin? && st.task == x)
    ensures st.Begin? && st.task == x ==> Next(g, st).calls[x] == Call(st.dependencies, false, 0)
    ensures st.Register? && st.task == x ==>
              Next(g, st).calls[x] == Call(g.calls[x].rest[1..], Registers(g, st), g.calls[x].pending)
    ensures st.Count? && st.task == x ==>
              Next(g, st).calls[x] == Call(g.calls[x].rest, false, Raised(g.calls[x].pending))
    ensures x in Next(g, st).calls && !((st.Begin? || st.Register? || st.Count?) && st.task == x) ==>
              Next(g, st).calls[x] == g.calls[x]
  {
  }

  lemma NewTaskStep(g: Graph, st: Step, x: Id)
    requires Enabled(g, st) && !HasTask(g, x) && HasTask(Next(g, st), x)
    ensures st.Create? && x == |g.tasks| && Next(g, st).tasks[x] == NewTask
  {
  }

  lemma TableGrows(g: Graph, st: Step)
    requires Enabled(g, st)
    ensures |g.tasks| <= |Next(g, st).tasks|
    ensures !st.Dequeue? ==> Next(g, st).started == g.started
  {
  }

  // ---------------------------------------------------------------- the sums across one step

  lemma CursorsFit(g: Graph)
    requires AllShaped(g)
    ensures forall d :: 0 <= d < |g.tasks| && g.tasks[d].phase.Releasing? ==>
              g.tasks[d].phase.cursor <= |g.tasks[d].dependents|
  {
    forall d | 0 <= d < |g.tasks| ensures Shaped(g.tasks[d]) {}
  }

  lemma HandedListsEmpty(g: Graph)
    requires AllShaped(g)
    ensures forall t :: 0 <= t < |g.tasks| && g.tasks[t].phase.Handing? ==> g.tasks[t].dependents == []
  {
    forall t | 0 <= t < |g.tasks| ensures Shaped(g.tasks[t]) {}
  }

  predicate Releases(g: Graph, st: Step, x: Id)
    requires Enabled(g, st)
  {
    st.Release? && Released(g, st) == x
  }

  /** The step gives `x` a start job: the last release, or a call that registered nothing. */
  predicate Readies(g: Graph, st: Step, x: Id)
    requires Enabled(g, st)
  {
    || (Releases(g, st, x) && HasTask(g, x) && g.tasks[x].counter == 1)
    || (st == EndCall(x) && g.calls[x].pending == 0)
  }

  lemma OwedStep(g: Graph, st: Step, x: Id)
    requires AllShaped(g) && Enabled(g, st)
    ensures Owed(Next(g, st), x) + One(Releases(g, st, x)) == Owed(g, x) + One(Registers(g, st) && st.task == x)
  {
    hide Waiting, Readied, Next, AllShaped;
    CursorsFit(g);
    HandedListsEmpty(g);
    if st.Register? {
      RegisterEffect(g, st.task, x);
    } else if st.Release? {
      ReleaseEffect(g, st.task, x);
    } else if st.Hand? {
      HandEffect(g, st.task, x);
    } else {
      QuietEffect(g, st, x);
    }
  }

  lemma ReadiedStep(g: Graph, st: Step, x: Id)
    requires AllShaped(g) && Enabled(g, st) && HasTask(g, x)
    ensures Readied(Next(g, st).tasks)[x] + One(st.Hand? && g.tasks[st.task].phase.ready[0] == x)
         == Readied(g.tasks)[x] + One(st.Release? && Readies(g, st, x))
  {
    hide Waiting, Readied, Next, AllShaped;
    CursorsFit(g);
    HandedListsEmpty(g);
    if st.Register? {
      RegisterEffect(g, st.task, x);
    } else if st.Release? {
      ReleaseEffect(g, st.task, x);
    } else if st.Hand? {
      HandEffect(g, st.task, x);
    } else {
      QuietEffect(g, st, x);
    }
  }

  lemma QueueStep(g: Graph, st: Step, x: Id)
    requires Enabled(g, st)
    ensures multiset(Next(g, st).queue)[x] + One(st.Dequeue? && g.queue[0] == x)
         == multiset(g.queue)[x] + One(st.Hand? && g.tasks[st.task].phase.ready[0] == x)
              + One(st == EndCall(x) && g.calls[x].pending == 0)
  {
    QueueMoves(g, st);
    hide Next, Enabled;
    match st {
      case Hand(t) => LastOn(g.queue, g.tasks[t].phase.ready[0], x);
      case EndCall(t) => LastOn(g.queue, t, x);
      case Dequeue =>
        assert g.queue[0..] == g.queue;
        HeadOff(g.queue, 0, x);
      case _ =>
    }
  }

  lemma QueueMoves(g: Graph, st: Step)
    requires Enabled(g, st)
    ensures st.Hand? ==> Next(g, st).queue == g.queue + [g.tasks[st.task].phase.ready[0]]
    ensures st.EndCall? ==> Next(g, st).queue == if g.calls[st.task].pending == 0 then g.queue + [st.task] else g.queue
    ensures st.Dequeue? ==> Next(g, st).queue == g.queue[1..]
    ensures !st.Hand? && !st.EndCall? && !st.Dequeue? ==> Next(g, st).queue == g.queue
  {
  }

  /** Start jobs change by those a step makes; only a job of a task that already started is lost. */
  lemma StartsStep(g: Graph, st: Step, x: Id)
    requires AllShaped(g) && Enabled(g, st) && HasTask(g, x)
    ensures HasTask(Next(g, st), x)
    ensures Starts(Next(g, st), x) + One(st.Dequeue? && g.queue[0] == x && !g.tasks[x].phase.Idle?)
         == Starts(g, x) + One(Readies(g, st, x))
  {
    hide Waiting, Readied, Next, AllShaped;
    ReadiedStep(g, st, x);
    QueueStep(g, st, x);
    TaskStep(g, st, x);
  }

  // ---------------------------------------------------------------- the counters

  lemma OwedNames(g: Graph, x: Id)
    requires AllShaped(g) && InRange(g) && Owed(g, x) > 0
    ensures HasTask(g, x)
  {
    WaitingFrom(g.tasks, x);
  }

  lemma NotYetNamed(g: Graph)
    requires InRange(g)
    ensures multiset(g.queue)[|g.tasks|] == 0 && Readied(g.tasks)[|g.tasks|] == 0
  {
    assert |g.tasks| !in g.queue;
    ReadiedFrom(g.tasks, |g.tasks|);
    hide Readied;
    assert forall i :: 0 <= i < |g.tasks| ==> |g.tasks| !in Ready(g.tasks[i]);
  }

  lemma NotInCall(g: Graph, x: Id)
    requires InRange(g) && !HasTask(g, x)
    ensures x !in g.calls
  {
  }

  lemma CreatedCounted(g: Graph)
    requires Books(g)
    ensures Counted(Next(g, Create), |g.tasks|) && Starts(Next(g, Create), |g.tasks|) == 0
  {
    hide Waiting, Readied, AllShaped, AllCounted, InRange;
    var x := |g.tasks|;
    assert Next(g, Create).tasks[x] == NewTask;
    NotInCall(g, x);
    NotYetNamed(g);
    if Owed(g, x) > 0 { OwedNames(g, x); }
    AppendNew(g.tasks, x);
  }

  lemma OwedMeansScheduled(g: Graph, x: Id)
    requires AllShaped(g) && Counted(g, x) && HasTask(g, x)
    ensures Owed(g, x) > 0 ==> g.tasks[x].scheduled
    ensures |g.tasks[x].listed| < WORD && (!g.tasks[x].scheduled ==> g.tasks[x].listed == [])
  {
    hide Owed;
    assert Shaped(g.tasks[x]);
  }

  /** Moving a counter with what it counts, modulo the word size. */
  lemma CounterMoves(c: Counter, u: nat, owed: nat)
    requires u <= 1 && Agrees(c, u, owed)
    ensures u == 0 && owed + 1 < WORD ==> Agrees(c, 1, owed + 1)
    ensures u == 1 ==> Agrees(Raised(c), 0, owed)
    ensures owed >= 1 ==> Agrees(Lowered(c), u, owed - 1)
  {
  }

  /** What a step does to a counter, what is owed and what is not counted yet, all at once. */
  lemma CounterParts(g: Graph, st: Step, x: Id)
    requires Books(g) && Enabled(g, st) && HasTask(g, x)
    ensures HasTask(Next(g, st), x)
    ensures Next(g, st).tasks[x].counter
         == (if st.Count? && st.task == x then Raised(g.tasks[x].counter)
             else if Releases(g, st, x) then Lowered(g.tasks[x].counter)
             else g.tasks[x].counter)
    ensures Next(g, st).tasks[x].listed == if st.Begin? && st.task == x then st.dependencies else g.tasks[x].listed
    ensures Uncounted(Next(g, st), x)
         == (if st.Count? && st.task == x then 0
             else if Registers(g, st) && st.task == x then 1
             else Uncounted(g, x))
    ensures st.Count? && st.task == x ==> Uncounted(g, x) == 1
    ensures Registers(g, st) && st.task == x ==> Uncounted(g, x) == 0
  {
    assert CallFits(g, x);
    hide Waiting, Next, AllCounted, AllShaped, InRange;
    TaskStep(g, st, x);
    CallStep(g, st, x);
  }

  lemma CounterStep(g: Graph, st: Step, x: Id)
    requires Books(g) && Enabled(g, st) && HasTask(g, x)
    ensures HasTask(Next(g, st), x)
    ensures Agrees(Next(g, st).tasks[x].counter, Uncounted(Next(g, st), x), Owed(Next(g, st), x))
    ensures Owed(Next(g, st), x) <= |Next(g, st).tasks[x].listed|
  {
    assert Counted(g, x) && CallFits(g, x);
    hide Waiting, Next, AllCounted, InRange, Starts, Owed, Agrees, Uncounted, Registers;
    OwedMeansScheduled(g, x);
    OwedStep(g, st, x);
    CounterParts(g, st, x);
    hide AllShaped;
    CounterMoves(g.tasks[x].counter, Uncounted(g, x), Owed(g, x));
  }

  lemma CountedStep(g: Graph, st: Step, x: Id)
    requires Books(g) && Enabled(g, st)
    ensures Counted(Next(g, st), x)
  {
    if HasTask(g, x) {
      assert Counted(g, x) && CallFits(g, x);
      CounterStep(g, st, x);
      hide Waiting, Readied, Next, AllCounted, InRange, Starts, Owed, Agrees;
      OwedMeansScheduled(g, x);
      OwedStep(g, st, x);
      StartsStep(g, st, x);
      TaskStep(g, st, x);
    } else if HasTask(Next(g, st), x) {
      NewTaskStep(g, st, x);
      CreatedCounted(g);
    }
  }

  lemma CallFitsStep(g: Graph, st: Step, x: Id)
    requires Books(g) && Enabled(g, st)
    ensures CallFits(Next(g, st), x)
  {
    if x in Next(g, st).calls {
      assert Counted(g, x) && CallFits(g, x);
      CallStep(g, st, x);
      hide Waiting, Next, AllCounted, Starts, Owed;
      assert HasTask(g, x);
      hide InRange;
      OwedMeansScheduled(g, x);
      OwedStep(g, st, x);
      TaskStep(g, st, x);
    }
  }

  /** Every step keeps the books, whoever it interrupts. */
  lemma StepKeepsBooks(g: Graph, st: Step)
    requires Books(g) && Enabled(g, st)
    ensures Books(Next(g, st))
  {
    hide AllShaped, InRange, Counted, CallFits, Next, Enabled;
    StepTidy(g, st);
    forall x: Id ensures Counted(Next(g, st), x) && CallFits(Next(g, st), x) {
      CountedStep(g, st, x);
      CallFitsStep(g, st, x);
    }
  }
}
