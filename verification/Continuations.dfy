/**
 The continuations of one task.  The completing thread sets the flag, later takes the list away,
 then resumes its entries one by one; meanwhile any number of threads register continuations.
 Each step is one section under the task's lock, or one resumption.
 */
module Continuations {

  /** A coroutine handle, by its address. */
  type Handle = nat

  datatype Stage = Open | Flagged | Resuming(taken: seq<Handle>) | Finished

  /**
   `immediate` holds the handles whose registering thread saw the flag and has yet to resume them.
   The fields after it are history; `kept` lists what went into the list and `served` what was
   resumed out of it, both in order.
   */
  datatype State = State(
    completed: bool,
    continuations: seq<Handle>,
    stage: Stage,
    immediate: multiset<Handle>,
    registered: multiset<Handle>,
    resumed: multiset<Handle>,
    kept: seq<Handle>,
    served: seq<Handle>)

  const Initial := State(false, [], Open, multiset{}, multiset{}, multiset{}, [], [])

  datatype Step =
    | Add(handle: Handle)
    | ResumeNow(handle: Handle)
    | SetFlag
    | TakeList
    | ResumeTaken
    | Finish

  predicate Enabled(s: State, st: Step) {
    match st
    case Add(_) => true
    case ResumeNow(h) => h in s.immediate
    case SetFlag => s.stage == Open
    case TakeList => s.stage == Flagged
    case ResumeTaken => s.stage.Resuming? && s.stage.taken != []
    case Finish => s.stage == Resuming([])
  }

  function Next(s: State, st: Step): State
    requires Enabled(s, st)
  {
    match st
    case Add(h) =>
      var noted := s.(registered := More(s.registered, h));
      if s.completed then noted.(immediate := More(s.immediate, h))
      else noted.(continuations := s.continuations + [h], kept := s.kept + [h])
    case ResumeNow(h) =>
      s.(immediate := s.immediate[h := s.immediate[h] - 1], resumed := More(s.resumed, h))
    case SetFlag => s.(completed := true, stage := Flagged)
    case TakeList => s.(stage := Resuming(s.continuations), continuations := [])
    case ResumeTaken =>
      var h := s.stage.taken[0];
      s.(stage := Resuming(s.stage.taken[1..]), resumed := More(s.resumed, h), served := s.served + [h])
    case Finish => s.(stage := Finished)
  }

  function More(m: multiset<Handle>, h: Handle): multiset<Handle> {
    m[h := m[h] + 1]
  }

  function Taken(s: State): seq<Handle> {
    if s.stage.Resuming? then s.stage.taken else []
  }

  /** Every registration of `h` is in one place. */
  ghost predicate Balanced(s: State, h: Handle) {
    s.registered[h] == multiset(s.continuations)[h] + multiset(Taken(s))[h] + s.immediate[h] + s.resumed[h]
  }

  /** Which stages the flag, the list and the resumptions go with. */
  predicate Staged(s: State) {
    && (s.completed <==> s.stage != Open)
    && (s.stage.Resuming? || s.stage.Finished? ==> s.continuations == [])
    && (!s.completed ==> s.immediate == multiset{} && s.resumed == multiset{})
  }

  /** First registered, first resumed. */
  predicate Queued(s: State) {
    && s.kept == s.served + Taken(s) + s.continuations
    && (s.stage.Open? || s.stage.Flagged? ==> s.served == [])
  }

  ghost predicate Inv(s: State) {
    Staged(s) && Queued(s) && forall h: Handle :: Balanced(s, h)
  }

  lemma StepQueued(s: State, st: Step)
    requires Staged(s) && Queued(s) && Enabled(s, st)
    ensures Queued(Next(s, st))
  {
    if st.ResumeTaken? { assert s.stage.taken == [s.stage.taken[0]] + s.stage.taken[1..]; }
  }

  lemma StepStaged(s: State, st: Step)
    requires Staged(s) && Enabled(s, st)
    ensures Staged(Next(s, st))
    ensures s.completed ==> Next(s, st).completed
  {
  }

  lemma OneMore(l: seq<Handle>, k: Handle, h: Handle)
    ensures multiset(l + [k])[h] == multiset(l)[h] + if h == k then 1 else 0
    ensures multiset([k] + l)[h] == multiset(l)[h] + if h == k then 1 else 0
  {
  }

  lemma AddBalanced(s: State, k: Handle, h: Handle)
    requires Staged(s) && Balanced(s, h)
    ensures Balanced(Next(s, Add(k)), h)
  {
    OneMore(s.continuations, k, h);
  }

  lemma ResumeTakenBalanced(s: State, h: Handle)
    requires Enabled(s, ResumeTaken) && Balanced(s, h)
    ensures Balanced(Next(s, ResumeTaken), h)
  {
    assert s.stage.taken == [s.stage.taken[0]] + s.stage.taken[1..];
    OneMore(s.stage.taken[1..], s.stage.taken[0], h);
  }

  lemma StepBalanced(s: State, st: Step, h: Handle)
    requires Staged(s) && Enabled(s, st) && Balanced(s, h)
    ensures Balanced(Next(s, st), h)
  {
    if st.Add? {
      AddBalanced(s, st.handle, h);
    } else if st.ResumeTaken? {
      ResumeTakenBalanced(s, h);
    }
  }

  lemma StepKeepsInv(s: State, st: Step)
    requires Inv(s) && Enabled(s, st)
    ensures Inv(Next(s, st))
  {
    hide Staged, Queued, Balanced, Next, Enabled;
    StepStaged(s, st);
    StepQueued(s, st);
    forall h: Handle ensures Balanced(Next(s, st), h) { StepBalanced(s, st, h); }
  }

  predicate CanRun(s: State, steps: seq<Step>)
    decreases |steps|
  {
    steps == [] || (Enabled(s, steps[0]) && CanRun(Next(s, steps[0]), steps[1..]))
  }

  function After(s: State, steps: seq<Step>): State
    requires CanRun(s, steps)
    decreases |steps|
  {
    if steps == [] then s else After(Next(s, steps[0]), steps[1..])
  }

  lemma {:induction false} RunKeepsInv(s: State, steps: seq<Step>)
    requires Inv(s) && CanRun(s, steps)
    ensures Inv(After(s, steps))
    decreases |steps|
  {
    hide Inv, Next, Enabled;
    if steps != [] {
      StepKeepsInv(s, steps[0]);
      RunKeepsInv(Next(s, steps[0]), steps[1..]);
    }
  }

  /**
   Exactly once: under every interleaving, no continuation is resumed more often than it was
   registered, or before the task completed; and when the completing thread is done and no
   registering thread still has to resume it, it was resumed as often as it was registered.
   */
  lemma ResumedExactlyOnce(steps: seq<Step>, h: Handle)
    requires CanRun(Initial, steps)
    ensures var s := After(Initial, steps);
            && s.resumed[h] <= s.registered[h]
            && (s.resumed[h] > 0 ==> s.completed)
            && (s.stage.Finished? && s.immediate[h] == 0 ==> s.resumed[h] == s.registered[h])
  {
    RunKeepsInv(Initial, steps);
    var s := After(Initial, steps);
    assert Balanced(s, h);
    hide CanRun, After;
  }

  /**
   In order: under every interleaving what the completing thread has resumed is a beginning of what
   was kept, in the order of registration, and at the end all of it.
   */
  lemma ResumedInOrder(steps: seq<Step>)
    requires CanRun(Initial, steps)
    ensures var s := After(Initial, steps);
            && s.served <= s.kept
            && (s.stage.Finished? ==> s.served == s.kept)
  {
    RunKeepsInv(Initial, steps);
    var s := After(Initial, steps);
    hide CanRun, After;
    assert s.kept == s.served + (Taken(s) + s.continuations);
  }

  /** No registration is lost: while one is not resumed, some thread can take it further. */
  lemma UnresumedCanProgress(steps: seq<Step>, h: Handle)
    requires CanRun(Initial, steps)
    requires After(Initial, steps).resumed[h] < After(Initial, steps).registered[h]
    ensures var s := After(Initial, steps);
            || Enabled(s, ResumeNow(h))
            || Enabled(s, SetFlag) || Enabled(s, TakeList) || Enabled(s, ResumeTaken) || Enabled(s, Finish)
  {
    ResumedExactlyOnce(steps, h);
    hide CanRun, After;
  }

  // ---------------------------------------------------------------- the task state as an object

  class TaskState {
    var state: State

    ghost predicate Valid()
      reads this
    {
      Inv(state)
    }

    constructor ()
      ensures Valid() && state == Initial
    {
      state := Initial;
    }

    method Take(st: Step)
      requires Valid() && Enabled(state, st)
      modifies this
      ensures Valid() && state == Next(old(state), st)
    {
      StepKeepsInv(state, st);
      state := Next(state, st);
    }

    /** `add_continuation`, undisturbed: kept until completion, resumed on the spot afterwards. */
    method AddContinuation(h: Handle)
      requires Valid()
      modifies this
      ensures Valid() && state.completed == old(state).completed && state.stage == old(state).stage
      ensures state.immediate == old(state).immediate && state.registered == More(old(state).registered, h)
      ensures old(state).completed ==>
                state.resumed == More(old(state).resumed, h) && state.continuations == old(state).continuations
      ensures !old(state).completed ==>
                state.resumed == old(state).resumed && state.continuations == old(state).continuations + [h]
    {
      hide Inv;
      Take(Add(h));
      if state.completed {
        Take(ResumeNow(h));
      }
    }

    /** `on_completed` and `resume_continuations`, undisturbed: all that was kept is resumed, once each. */
    method OnCompleted()
      requires Valid() && state.stage == Open
      modifies this
      ensures Valid() && state.completed && state.stage == Finished && state.continuations == []
      ensures state.resumed == old(state).resumed + multiset(old(state).continuations)
      ensures state.registered == old(state).registered && state.immediate == old(state).immediate
      ensures state.served == old(state).served + old(state).continuations && state.kept == old(state).kept
    {
      hide Inv;
      Take(SetFlag);
      Take(TakeList);
      ghost var handed: seq<Handle> := [];
      ghost var kept := state.stage.taken;
      while state.stage.taken != []
        invariant Valid() && state.stage.Resuming? && handed + state.stage.taken == kept
        invariant state.completed && state.continuations == []
        invariant state.resumed == old(state).resumed + multiset(handed)
        invariant state.served == old(state).served + handed && state.kept == old(state).kept
        invariant state.registered == old(state).registered && state.immediate == old(state).immediate
        decreases |state.stage.taken|
      {
        handed := handed + [state.stage.taken[0]];
        Take(ResumeTaken);
      }
      assert handed == kept;
      Take(Finish);
    }
  }
}
