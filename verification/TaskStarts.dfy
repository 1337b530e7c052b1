/**
 How often and how early a task starts.  `schedule` registers with a dependency before it counts
 the registration, so a release may find the counter at 1 while the call is still under way; the
 guards below say which of those releases do harm, and which calls lose their start altogether.
 */
module TaskStarts {
  import opened Options
  import opened TaskGraph
  import opened GraphBooks
  import opened TaskOrder

  /** The release brings the counter of `x` to zero and so makes it ready. */
  predicate HitsZero(g: Graph, st: Step, x: Id)
    requires Enabled(g, st)
  {
    Releases(g, st, x) && HasTask(g, x) && g.tasks[x].counter == 1
  }

  /**
   The release makes `x` ready during its own call, with a registration still to be counted or an
   open dependency still to be registered.
   */
  predicate Harmful(g: Graph, st: Step, x: Id)
    requires Enabled(g, st)
  {
    && HitsZero(g, st, x) && x in g.calls
    && (g.calls[x].uncounted || SomeOpen(g, g.calls[x].rest))
  }

  /** The release makes `x` ready while a task it lists is still open. */
  predicate Premature(g: Graph, st: Step, x: Id)
    requires Enabled(g, st)
  {
    HitsZero(g, st, x) && SomeOpen(g, g.tasks[x].listed)
  }

  /** The body of `x` has started and a task it lists is still open. */
  predicate Early(g: Graph, x: Id) {
    HasTask(g, x) && !g.tasks[x].phase.Idle? && SomeOpen(g, g.tasks[x].listed)
  }

  // ---------------------------------------------------------------- guards on the state before the release

  lemma AgreesAtOne(c: Counter, u: nat, owed: nat)
    requires Agrees(c, u, owed) && u <= 1 && owed < WORD
    ensures c == 1 <==> owed == 1 + u
  {
  }

  lemma HitOwes(g: Graph, st: Step, x: Id)
    requires Books(g) && Enabled(g, st) && Releases(g, st, x) && HasTask(g, x)
    ensures g.tasks[x].counter == 1 <==> Owed(g, x) == 1 + Uncounted(g, x)
    ensures Owed(g, x) >= 1
  {
    hide Owed, Next, InRange, Agrees, CallFits, Starts;
    OwedStep(g, st, x);
    assert Counted(g, x);
    OwedMeansScheduled(g, x);
    AgreesAtOne(g.tasks[x].counter, Uncounted(g, x), Owed(g, x));
  }

  lemma OpenInRestIsListed(g: Graph, x: Id)
    requires Sourced(g) && x in g.calls && SomeOpen(g, g.calls[x].rest)
    ensures HasTask(g, x) && SomeOpen(g, g.tasks[x].listed)
  {
    var d: Option<Id> :| d in g.calls[x].rest && IsOpen(g, d);
    assert CallSource(g, x, d);
  }

  ghost predicate OpenHolder(g: Graph, x: Id) {
    exists d: Id :: HasTask(g, d) && !g.tasks[d].completed && x in g.tasks[d].dependents
  }

  lemma HolderIsListed(g: Graph, x: Id)
    requires Sourced(g) && OpenHolder(g, x)
    ensures HasTask(g, x) && SomeOpen(g, g.tasks[x].listed)
  {
    var d: Id :| HasTask(g, d) && !g.tasks[d].completed && x in g.tasks[d].dependents;
    assert Source(g, d, x) && IsOpen(g, Some(d));
  }

  lemma OpenListedIsSomewhere(g: Graph, x: Id)
    requires Gated(g) && HasTask(g, x) && SomeOpen(g, g.tasks[x].listed)
    ensures (x in g.calls && SomeOpen(g, g.calls[x].rest)) || OpenHolder(g, x)
  {
    var d: Option<Id> :| d in g.tasks[x].listed && IsOpen(g, d);
    assert Gate(g, x, d.value) && Lists(g, x, d.value);
  }

  /** A registration in an open list is owed beside the one being released. */
  lemma HolderOwesMore(g: Graph, st: Step, x: Id)
    requires GraphInv(g) && Enabled(g, st) && Releases(g, st, x) && OpenHolder(g, x)
    ensures Owed(g, x) >= 2
  {
    hide Owed, Next, AllCounted, Gated, Sourced, Logged;
    var d: Id :| HasTask(g, d) && !g.tasks[d].completed && x in g.tasks[d].dependents;
    StepTidy(g, st);
    TaskStep(g, st, d);
    OpenOwes(Next(g, st), x, d);
    OwedStep(g, st, x);
  }

  /**
   Premature, seen from the call: the release finds the counter at 1 inside the call of `x`, and
   the call has an open token left, or one registration is uncounted while an open task holds one.
   */
  lemma PrematureGuard(g: Graph, st: Step, x: Id)
    requires GraphInv(g) && Enabled(g, st) && HitsZero(g, st, x)
    ensures Premature(g, st, x) <==>
            x in g.calls && (SomeOpen(g, g.calls[x].rest) || (g.calls[x].uncounted && OpenHolder(g, x)))
    ensures Premature(g, st, x) ==> Harmful(g, st, x)
  {
    hide Owed, AllShaped, InRange, AllCounted, Gated, Sourced, Logged;
    HitOwes(g, st, x);
    if x in g.calls && SomeOpen(g, g.calls[x].rest) { OpenInRestIsListed(g, x); }
    if OpenHolder(g, x) {
      HolderIsListed(g, x);
      HolderOwesMore(g, st, x);
    }
    if SomeOpen(g, g.tasks[x].listed) { OpenListedIsSomewhere(g, x); }
  }

  // ---------------------------------------------------------------- what holds as long as no harm is done

  /** Whoever has a start job finds all dependencies completed. */
  ghost predicate Punctual(g: Graph, x: Id) {
    HasTask(g, x) && Starts(g, x) > 0 ==> !SomeOpen(g, g.tasks[x].listed)
  }

  /** Nothing will make `x` ready again. */
  ghost predicate Settled(g: Graph, x: Id) {
    && Owed(g, x) == 0
    && (x in g.calls ==> g.calls[x].pending > 0 && !g.calls[x].uncounted)
  }

  /** At most one start job, and once there is one, no reason for another. */
  ghost predicate Single(g: Graph, x: Id) {
    && Punctual(g, x)
    && (HasTask(g, x) ==> Starts(g, x) <= 1 && (Starts(g, x) == 1 ==> Settled(g, x)))
    && multiset(g.started)[x] <= 1
  }

  /** Scheduled, and nobody will ever start it. */
  ghost predicate Lost(g: Graph, x: Id) {
    HasTask(g, x) && g.tasks[x].scheduled && x !in g.calls && Owed(g, x) == 0 && Starts(g, x) == 0
  }

  /** The call ends with every registration processed, none of which made the task ready. */
  ghost predicate LosesStart(g: Graph, st: Step, x: Id)
    requires Enabled(g, st)
  {
    st == EndCall(x) && HasTask(g, x) && g.calls[x].pending != 0 && Owed(g, x) == 0 && Starts(g, x) == 0
  }

  lemma NewTaskStarts(g: Graph, st: Step, x: Id)
    requires GraphInv(g) && Enabled(g, st) && !HasTask(g, x) && HasTask(Next(g, st), x)
    ensures Starts(Next(g, st), x) == 0 && !Next(g, st).tasks[x].scheduled
  {
    NewTaskStep(g, st, x);
    CreatedCounted(g);
  }

  lemma ClosedStaysClosed(g: Graph, st: Step, x: Id)
    requires InRange(g) && Enabled(g, st) && HasTask(g, x) && !SomeOpen(g, g.tasks[x].listed)
    requires !(st.Begin? && st.task == x)
    ensures HasTask(Next(g, st), x) && !SomeOpen(Next(g, st), Next(g, st).tasks[x].listed)
  {
    hide Next, InRange;
    TaskStep(g, st, x);
    forall d: Option<Id> | d in g.tasks[x].listed ensures !IsOpen(Next(g, st), d) {
      if d.Some? {
        assert Lists(g, x, d.value);
        ListedIsTask(g, x, d.value);
        TaskStep(g, st, d.value);
      }
    }
  }

  /** A call that registered nothing, or a release that leaves nothing owed, finds all dependencies completed. */
  lemma ReadyIsPunctual(g: Graph, st: Step, x: Id)
    requires GraphInv(g) && Enabled(g, st) && HasTask(g, x) && Readies(g, st, x) && !Premature(g, st, x)
    ensures HasTask(Next(g, st), x) && !SomeOpen(Next(g, st), Next(g, st).tasks[x].listed)
  {
    hide Next, Owed, Gated, Sourced, Logged, AllShaped, Counted, CallFits;
    if st.Release? {
      ClosedStaysClosed(g, st, x);
    } else {
      EndedCallOwesNothing(g, x);
      StepKeepsInv(g, st);
      OwedStep(g, st, x);
      CallStep(g, st, x);
      TaskStep(g, st, x);
      NothingOwedMeansReady(Next(g, st), x);
    }
  }

  lemma EndedCallOwesNothing(g: Graph, x: Id)
    requires Books(g) && Enabled(g, EndCall(x)) && g.calls[x].pending == 0
    ensures Owed(g, x) == 0
  {
    assert CallFits(g, x);
    hide Owed;
  }

  lemma PunctualStep(g: Graph, st: Step, x: Id)
    requires GraphInv(g) && Enabled(g, st) && Punctual(g, x) && !Premature(g, st, x)
    ensures Punctual(Next(g, st), x)
  {
    hide Next, Owed, Starts, Gated, Sourced, Logged, AllShaped, CallFits;
    if HasTask(g, x) {
      StartsStep(g, st, x);
      if Readies(g, st, x) {
        ReadyIsPunctual(g, st, x);
      } else if Starts(g, x) > 0 {
        assert Counted(g, x);
        BeginsUnscheduled(g, st);
        ClosedStaysClosed(g, st, x);
      }
    } else if HasTask(Next(g, st), x) {
      NewTaskStarts(g, st, x);
    }
  }

  lemma BeginsUnscheduled(g: Graph, st: Step)
    requires Enabled(g, st)
    ensures st.Begin? ==> HasTask(g, st.task) && !g.tasks[st.task].scheduled
  {
  }

  lemma SettledStays(g: Graph, st: Step, x: Id)
    requires GraphInv(g) && Enabled(g, st) && HasTask(g, x) && Starts(g, x) > 0
    requires Settled(g, x) && Punctual(g, x)
    ensures Settled(Next(g, st), x) && !Readies(g, st, x)
  {
    hide Next, Owed, Starts, Gated, Logged, AllShaped, InRange, CallFits;
    assert Counted(g, x);
    OwedStep(g, st, x);
    CallStep(g, st, x);
    BeginsUnscheduled(g, st);
    if st == Register(x) {
      NextRestSourced(g, x);
      assert Registers(g, st) ==> IsOpen(g, g.calls[x].rest[0]);
    }
  }

  lemma SingleStep(g: Graph, st: Step, x: Id)
    requires GraphInv(g) && Enabled(g, st) && Single(g, x) && !Harmful(g, st, x)
    ensures Single(Next(g, st), x)
  {
    if HitsZero(g, st, x) { PrematureGuard(g, st, x); }
    PunctualStep(g, st, x);
    hide Next, Owed, Starts, Gated, Sourced, Logged, Punctual, AllShaped, InRange, Counted, CallFits;
    StartedOnceStep(g, st, x);
    if HasTask(g, x) {
      StartsStep(g, st, x);
      if Starts(g, x) == 1 {
        SettledStays(g, st, x);
      } else if Readies(g, st, x) {
        ReadySettles(g, st, x);
      }
    } else if HasTask(Next(g, st), x) {
      NewTaskStarts(g, st, x);
    }
  }

  lemma ReadySettles(g: Graph, st: Step, x: Id)
    requires GraphInv(g) && Enabled(g, st) && HasTask(g, x) && Readies(g, st, x) && !Harmful(g, st, x)
    ensures Settled(Next(g, st), x)
  {
    hide Next, Owed, Starts, Gated, Sourced, Logged, AllShaped, InRange, Agrees;
    OwedStep(g, st, x);
    CallStep(g, st, x);
    assert CallFits(g, x);
    if st.Release? { HitOwes(g, st, x); } else { EndedCallOwesNothing(g, x); }
  }

  lemma StartedOnceStep(g: Graph, st: Step, x: Id)
    requires GraphInv(g) && Enabled(g, st) && Single(g, x)
    ensures multiset(Next(g, st).started)[x] <= 1
  {
    StartedLog(g, st);
    hide Next, Owed, Books, Gated, Sourced, Settled, Punctual;
    if st.Dequeue? {
      LastOn(g.started, g.queue[0], x);
      if g.queue[0] == x {
        assert x in g.queue && Starts(g, x) <= 1;
        assert g.tasks[x].phase.Idle?;
        StartedBefore(g, x);
      }
    }
  }

  // ---------------------------------------------------------------- lost starts

  /** A task becomes lost at the guarded end of its call and nowhere else, and then stays lost. */
  lemma LostStep(g: Graph, st: Step, x: Id)
    requires GraphInv(g) && Enabled(g, st)
    ensures Lost(Next(g, st), x) <==> Lost(g, x) || LosesStart(g, st, x)
  {
    hide Next, Gated, Sourced, Logged, InRange, AllShaped, Counted, CallFits;
    if HasTask(g, x) {
      LostTaskStep(g, st, x);
    } else {
      UnknownIsNotCalled(g, x);
      if HasTask(Next(g, st), x) { NewTaskStarts(g, st, x); }
    }
  }

  lemma UnknownIsNotCalled(g: Graph, x: Id)
    requires InRange(g) && !HasTask(g, x)
    ensures x !in g.calls
  {
  }

  lemma LostTaskStep(g: Graph, st: Step, x: Id)
    requires GraphInv(g) && Enabled(g, st) && HasTask(g, x)
    ensures Lost(Next(g, st), x) <==> Lost(g, x) || LosesStart(g, st, x)
  {
    assert Counted(g, x) && CallFits(g, x);
    hide Next, Owed, Starts, Gated, Sourced, Logged, InRange, AllCounted, Agrees;
    OwedStep(g, st, x);
    StartsStep(g, st, x);
    StartedKeepsJob(g, st, x);
    TaskStep(g, st, x);
    CallStep(g, st, x);
    BeginsUnscheduled(g, st);
    hide AllShaped;
    if Releases(g, st, x) {
      assert AllCounted(g);
      HitOwes(g, st, x);
    }
  }

  lemma StartedKeepsJob(g: Graph, st: Step, x: Id)
    requires Enabled(g, st) && HasTask(g, x)
    ensures HasTask(Next(g, st), x)
    ensures st.Dequeue? && g.queue[0] == x ==> Starts(Next(g, st), x) > 0 && Starts(g, x) > 0
  {
    hide Next, Readied;
    TaskStep(g, st, x);
    if st.Dequeue? { assert g.queue[0] in g.queue; }
  }

  lemma LostIsIdle(g: Graph, x: Id)
    requires Books(g) && Lost(g, x)
    ensures g.tasks[x].phase.Idle? && !g.tasks[x].completed
  {
    hide Owed, Readied;
    assert Shaped(g.tasks[x]);
  }
}
