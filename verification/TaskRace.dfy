/**
 What goes wrong when a dependency finishes while the call of `schedule` that lists it is still
 under way.  The call registers with one dependency at a time and counts each registration in a
 later step, so a release can come in between.  Three runs from the empty graph: a body that starts
 with a dependency still open, a body that is resumed twice, and a task that never starts.
 */
module TaskRace {
  import opened Options
  import opened TaskGraph
  import opened GraphBooks
  import opened TaskOrder
  import opened TaskStarts
  import opened TaskRuns
  import opened TaskNecessity

  lemma {:induction false} RunsCompose(g: Graph, first: seq<Step>, second: seq<Step>)
    requires CanRun(g, first) && CanRun(After(g, first), second)
    ensures CanRun(g, first + second) && After(g, first + second) == After(After(g, first), second)
    ensures GroundedRun(g, first) && GroundedRun(After(g, first), second) ==> GroundedRun(g, first + second)
    decreases |first|
  {
    hide Enabled, Next, Grounded;
    if first == [] {
      assert first + second == second;
    } else {
      RunsCompose(Next(g, first[0]), first[1..], second);
      assert (first + second)[0] == first[0] && (first + second)[1..] == first[1..] + second;
    }
  }

  lemma ThreeSteps(g: Graph, a: Step, b: Step, c: Step)
    requires Enabled(g, a) && Enabled(Next(g, a), b) && Enabled(Next(Next(g, a), b), c)
    ensures CanRun(g, [a, b, c]) && After(g, [a, b, c]) == Next(Next(Next(g, a), b), c)
  {
    hide Enabled, Next;
    StepThenRun(Next(Next(g, a), b), c, []);
    StepThenRun(Next(g, a), b, [c] + []);
    StepThenRun(g, a, [b] + ([c] + []));
    assert [a] + ([b] + ([c] + [])) == [a, b, c];
  }

  // ---------------------------------------------------------------- too early

  const THREE := Graph([NewTask, NewTask, NewTask], [], map[], [], [])

  const FIRST := NewTask.(scheduled := true)

  const BOTH: seq<Option<Id>> := [Some(0), Some(1)]

  const LAST := NewTask.(scheduled := true, listed := BOTH)

  /** The call for task 2 is about to register with its first dependency, whose job is queued. */
  const CALLING := Graph([FIRST, NewTask, LAST], [0], map[2 := Call(BOTH, false, 0)], [], [0, 2])

  const HALFWAY := Graph(
    [FIRST.(phase := Running, dependents := [2]), NewTask, LAST.(counter := 1)], [],
    map[2 := Call([Some(1)], false, 1)], [0], [0, 2])

  const FIRING := Graph(
    [FIRST.(phase := Releasing(1, [2]), completed := true, dependents := [2]), NewTask, LAST], [],
    map[2 := Call([Some(1)], false, 1)], [0], [0, 2])

  const STARTED := Graph(
    [FIRST.(phase := Handing([]), completed := true), NewTask, LAST.(phase := Running)], [],
    map[2 := Call([Some(1)], false, 1)], [0, 2], [0, 2])

  lemma CreateThree()
    ensures CanRun(EmptyGraph, [Create, Create, Create]) && After(EmptyGraph, [Create, Create, Create]) == THREE
  {
    ThreeSteps(EmptyGraph, Create, Create, Create);
    assert Next(EmptyGraph, Create).tasks == [NewTask];
    assert Next(Next(EmptyGraph, Create), Create).tasks == [NewTask, NewTask];
  }

  lemma BeginBoth()
    ensures CanRun(THREE, [Begin(0, []), EndCall(0), Begin(2, BOTH)])
    ensures After(THREE, [Begin(0, []), EndCall(0), Begin(2, BOTH)]) == CALLING
  {
    var g1 := Next(THREE, Begin(0, []));
    assert g1 == Graph([FIRST, NewTask, NewTask], [], map[0 := Call([], false, 0)], [], [0]);
    var g2 := Next(g1, EndCall(0));
    assert g2 == Graph([FIRST, NewTask, NewTask], [0], map[], [], [0]);
    assert BOTH[0] == Some(0) && BOTH[1] == Some(1);
    assert Next(g2, Begin(2, BOTH)) == CALLING;
    ThreeSteps(THREE, Begin(0, []), EndCall(0), Begin(2, BOTH));
  }

  lemma RegisterFirst()
    ensures CanRun(CALLING, [Register(2), Count(2), Dequeue])
    ensures After(CALLING, [Register(2), Count(2), Dequeue]) == HALFWAY
  {
    assert BOTH[1..] == [Some(1)];
    assert FIRST.dependents + [2] == [2];
    var g1 := Next(CALLING, Register(2));
    assert g1.calls == map[2 := Call([Some(1)], true, 0)];
    assert g1 == Graph([FIRST.(dependents := [2]), NewTask, LAST], [0], map[2 := Call([Some(1)], true, 0)], [], [0, 2]);
    var g2 := Next(g1, Count(2));
    assert g2 == Graph([FIRST.(dependents := [2]), NewTask, LAST.(counter := 1)], [0],
                       map[2 := Call([Some(1)], false, 1)], [], [0, 2]);
    assert Next(g2, Dequeue) == HALFWAY;
    ThreeSteps(CALLING, Register(2), Count(2), Dequeue);
  }

  const FLAGGED := HALFWAY.(tasks := [
    FIRST.(phase := Flagged, completed := true, dependents := [2]), NewTask, LAST.(counter := 1)])

  const RELEASING := HALFWAY.(tasks := [
    FIRST.(phase := Releasing(0, []), completed := true, dependents := [2]), NewTask, LAST.(counter := 1)])

  lemma ReleaseLast()
    ensures Enabled(RELEASING, Release(0)) && Next(RELEASING, Release(0)) == FIRING
  {
    assert Released(RELEASING, Release(0)) == 2;
    var none: seq<Id> := [];
    assert none + [2] == [2];
    assert Next(RELEASING, Release(0)).tasks == FIRING.tasks;
  }

  lemma FinishFirst()
    ensures CanRun(HALFWAY, [Complete(0), StartRelease(0), Release(0)])
    ensures After(HALFWAY, [Complete(0), StartRelease(0), Release(0)]) == FIRING
  {
    assert Enabled(HALFWAY, Complete(0)) && Next(HALFWAY, Complete(0)) == FLAGGED;
    assert Enabled(FLAGGED, StartRelease(0)) && Next(FLAGGED, StartRelease(0)) == RELEASING;
    ReleaseLast();
    hide *;
    ThreeSteps(HALFWAY, Complete(0), StartRelease(0), Release(0));
  }

  const CLEARED := FIRING.(tasks := [FIRST.(phase := Handing([2]), completed := true), NewTask, LAST])

  const HANDED := FIRING.(tasks := [FIRST.(phase := Handing([]), completed := true), NewTask, LAST], queue := [2])

  lemma HandLast()
    ensures Enabled(CLEARED, Hand(0)) && Next(CLEARED, Hand(0)) == HANDED
  {
    var two: seq<Id> := [2];
    assert CLEARED.queue + [2] == [2] && two[1..] == [];
    assert Next(CLEARED, Hand(0)).tasks == HANDED.tasks;
  }

  lemma DequeueLast()
    ensures Enabled(HANDED, Dequeue) && Next(HANDED, Dequeue) == STARTED
  {
    var two: seq<Id> := [2];
    assert two[1..] == [];
    assert Next(HANDED, Dequeue).tasks == STARTED.tasks;
    assert HANDED.started + [2] == [0, 2];
  }

  lemma StartLast()
    ensures CanRun(FIRING, [ClearList(0), Hand(0), Dequeue])
    ensures After(FIRING, [ClearList(0), Hand(0), Dequeue]) == STARTED
  {
    assert Enabled(FIRING, ClearList(0)) && Next(FIRING, ClearList(0)).tasks == CLEARED.tasks;
    assert Next(FIRING, ClearList(0)) == CLEARED;
    HandLast();
    DequeueLast();
    hide *;
    ThreeSteps(FIRING, ClearList(0), Hand(0), Dequeue);
  }

  /** A run, not calm, in which a body starts while a dependency it listed has not completed. */
  lemma RaceStartsEarly()
    ensures exists steps ::
              && CanRun(EmptyGraph, steps)
              && !CalmRun(EmptyGraph, steps)
              && var g := After(EmptyGraph, steps);
                 && HasTask(g, 2) && HasTask(g, 1)
                 && g.tasks[2].phase == Running && Lists(g, 2, 1) && !g.tasks[1].completed
  {
    CreateThree();
    BeginBoth();
    RegisterFirst();
    FinishFirst();
    StartLast();
    assert BOTH[1] == Some(1);
    assert Lists(STARTED, 2, 1) && HasTask(STARTED, 2) && HasTask(STARTED, 1);
    var steps := RaceSteps();
    assert IsOpen(STARTED, Some(1));
    if CalmRun(EmptyGraph, steps) { CalmRunsAreSound(steps, 2); }
  }

  lemma RaceSteps() returns (steps: seq<Step>)
    ensures CanRun(EmptyGraph, steps) && After(EmptyGraph, steps) == STARTED
  {
    CreateThree();
    BeginBoth();
    RegisterFirst();
    FinishFirst();
    StartLast();
    hide Enabled, Next, CanRun, After;
    var s1 := [Create, Create, Create];
    var s2 := s1 + [Begin(0, []), EndCall(0), Begin(2, BOTH)];
    RunsCompose(EmptyGraph, s1, [Begin(0, []), EndCall(0), Begin(2, BOTH)]);
    var s3 := s2 + [Register(2), Count(2), Dequeue];
    RunsCompose(EmptyGraph, s2, [Register(2), Count(2), Dequeue]);
    var s4 := s3 + [Complete(0), StartRelease(0), Release(0)];
    RunsCompose(EmptyGraph, s3, [Complete(0), StartRelease(0), Release(0)]);
    steps := s4 + [ClearList(0), Hand(0), Dequeue];
    RunsCompose(EmptyGraph, s4, [ClearList(0), Hand(0), Dequeue]);
  }

  // ---------------------------------------------------------------- steps of a run from the empty graph

  /** The run `steps` hands out tokens of scheduled tasks only and leads to `g`. */
  ghost predicate Reaches(steps: seq<Step>, g: Graph) {
    CanRun(EmptyGraph, steps) && GroundedRun(EmptyGraph, steps) && After(EmptyGraph, steps) == g
  }

  predicate StepsTo(g: Graph, st: Step, g': Graph) {
    Enabled(g, st) && Grounded(g, st) && Next(g, st) == g'
  }

  lemma OneStep(g: Graph, st: Step)
    requires Enabled(g, st)
    ensures CanRun(g, [st]) && After(g, [st]) == Next(g, st)
    ensures Grounded(g, st) ==> GroundedRun(g, [st])
  {
    hide Enabled, Next, Grounded;
    assert [st][1..] == [];
  }

  lemma Reached(steps: seq<Step>, g: Graph, st: Step, g': Graph)
    requires Reaches(steps, g) && StepsTo(g, st, g')
    ensures Reaches(steps + [st], g')
  {
    hide Enabled, Next, Grounded, CanRun, After, GroundedRun;
    OneStep(g, st);
    RunsCompose(EmptyGraph, steps, [st]);
  }

  lemma Reached4(
    steps: seq<Step>, g: Graph, a: Step, g1: Graph, b: Step, g2: Graph, c: Step, g3: Graph, d: Step, g4: Graph)
    requires Reaches(steps, g) && StepsTo(g, a, g1) && StepsTo(g1, b, g2) && StepsTo(g2, c, g3) && StepsTo(g3, d, g4)
    ensures Reaches(steps + [a, b, c, d], g4)
  {
    hide *;
    Reached(steps, g, a, g1);
    Reached(steps + [a], g1, b, g2);
    Reached(steps + [a] + [b], g2, c, g3);
    Reached(steps + [a] + [b] + [c], g3, d, g4);
    assert steps + [a] + [b] + [c] + [d] == steps + [a, b, c, d];
  }

  /** Two tasks, the first with its start job queued, the second about to be scheduled behind it. */
  const TWO := Graph([FIRST, NewTask], [0], map[], [], [0])

  const TWO_STEPS: seq<Step> := [Create, Create, Begin(0, []), EndCall(0)]

  lemma ReachTwo()
    ensures Reaches(TWO_STEPS, TWO)
  {
    var g1, g2 := Graph([NewTask], [], map[], [], []), Graph([NewTask, NewTask], [], map[], [], []);
    var g3 := Graph([FIRST, NewTask], [], map[0 := Call([], false, 0)], [], [0]);
    assert StepsTo(EmptyGraph, Create, g1) && StepsTo(g1, Create, g2);
    assert StepsTo(g2, Begin(0, []), g3) && StepsTo(g3, EndCall(0), TWO);
    assert Reaches([], EmptyGraph);
    hide StepsTo, Reaches;
    Reached4([], EmptyGraph, Create, g1, Create, g2, Begin(0, []), g3, EndCall(0), TWO);
    assert [] + TWO_STEPS == TWO_STEPS;
  }

  // ---------------------------------------------------------------- never

  const AFTER_FIRST: seq<Option<Id>> := [Some(0)]

  const SECOND := NewTask.(scheduled := true, listed := AFTER_FIRST)

  const L1 := Graph([FIRST, SECOND], [0], map[1 := Call(AFTER_FIRST, false, 0)], [], [0, 1])
  const L2 := Graph([FIRST.(dependents := [1]), SECOND], [0], map[1 := Call([], true, 0)], [], [0, 1])
  const L3 := L2.(tasks := [FIRST.(phase := Running, dependents := [1]), SECOND], queue := [], started := [0])
  const L4 := L3.(tasks := [FIRST.(phase := Flagged, completed := true, dependents := [1]), SECOND])
  const L5 := L3.(tasks := [FIRST.(phase := Releasing(0, []), completed := true, dependents := [1]), SECOND])
  const L6 := L3.(tasks := [
    FIRST.(phase := Releasing(1, []), completed := true, dependents := [1]), SECOND.(counter := WORD - 1)])
  const L7 := L3.(tasks := [FIRST.(phase := Handing([]), completed := true), SECOND.(counter := WORD - 1)])
  const L8 := L3.(tasks := [FIRST.(phase := Done, completed := true), SECOND.(counter := WORD - 1)])
  const L9 := L8.(tasks := [FIRST.(phase := Done, completed := true), SECOND], calls := map[1 := Call([], false, 1)])
  const STRANDED := L9.(calls := map[])

  lemma LostRegisters()
    ensures StepsTo(TWO, Begin(1, AFTER_FIRST), L1) && StepsTo(L1, Register(1), L2)
  {
    assert AFTER_FIRST[0] == Some(0) && AFTER_FIRST[1..] == [] && FIRST.dependents + [1] == [1];
    assert Next(TWO, Begin(1, AFTER_FIRST)).tasks == L1.tasks;
    assert Next(L1, Register(1)).tasks == L2.tasks;
  }

  lemma LostStarts()
    ensures StepsTo(L2, Dequeue, L3) && StepsTo(L3, Complete(0), L4)
  {
    assert Next(L2, Dequeue).tasks == L3.tasks && Next(L2, Dequeue).queue == [];
    assert Next(L3, Complete(0)).tasks == L4.tasks;
  }

  lemma LostReleases()
    ensures StepsTo(L4, StartRelease(0), L5) && StepsTo(L5, Release(0), L6)
  {
    assert Next(L4, StartRelease(0)).tasks == L5.tasks;
    assert Released(L5, Release(0)) == 1;
    assert Next(L5, Release(0)).tasks == L6.tasks;
  }

  lemma LostRetires()
    ensures StepsTo(L6, ClearList(0), L7) && StepsTo(L7, Retire(0), L8)
  {
    assert Next(L6, ClearList(0)).tasks == L7.tasks;
    assert Next(L7, Retire(0)).tasks == L8.tasks;
  }

  lemma LostEnd()
    ensures StepsTo(L8, Count(1), L9) && StepsTo(L9, EndCall(1), STRANDED)
  {
    assert Next(L8, Count(1)).tasks == L9.tasks;
    assert Next(L9, EndCall(1)).calls == map[];
  }

  lemma LostRun() returns (before: seq<Step>, after: seq<Step>)
    ensures Reaches(before, L5) && Reaches(before + [Release(0)], L6)
    ensures Reaches(before + [Release(0)] + after, STRANDED)
  {
    hide *;
    ReachTwo();
    LostRegisters();
    LostStarts();
    LostReleases();
    LostRetires();
    LostEnd();
    var s := TWO_STEPS + [Begin(1, AFTER_FIRST), Register(1), Dequeue, Complete(0)];
    Reached4(TWO_STEPS, TWO, Begin(1, AFTER_FIRST), L1, Register(1), L2, Dequeue, L3, Complete(0), L4);
    before := s + [StartRelease(0)];
    Reached(s, L4, StartRelease(0), L5);
    Reached(before, L5, Release(0), L6);
    after := [ClearList(0), Retire(0), Count(1), EndCall(1)];
    Reached4(before + [Release(0)], L6, ClearList(0), L7, Retire(0), L8, Count(1), L9, EndCall(1), STRANDED);
  }

  /** The run `steps` leaves the second task with its counter at `c`. */
  predicate SecondCounts(steps: seq<Step>, c: Counter) {
    && CanRun(EmptyGraph, steps) && HasTask(After(EmptyGraph, steps), 1)
    && After(EmptyGraph, steps).tasks[1].counter == c
  }

  /**
   A start is lost: the registration is released before it is counted, the counter wraps below
   zero and comes back to it, and nobody ever finds it at 1.  Everything falls quiet with the
   second task scheduled and not complete, so `wait_for_all` never returns.
   */
  lemma RaceLosesStart()
    ensures exists before, after ::
              && SecondCounts(before, 0) && SecondCounts(before + [Release(0)], WORD - 1)
              && SecondCounts(before + [Release(0)] + after, 0)
              && GroundedRun(EmptyGraph, before + [Release(0)] + after)
              && var g := After(EmptyGraph, before + [Release(0)] + after);
                 Quiet(g) && g.tasks[1].scheduled && !g.tasks[1].completed
  {
    var before, after := LostRun();
    assert Quiet(STRANDED) && HasTask(STRANDED, 1) && STRANDED.tasks[1] == SECOND;
    hide CanRun, After, GroundedRun, Quiet;
    assert SecondCounts(before, 0) && SecondCounts(before + [Release(0)], WORD - 1);
  }

  // ---------------------------------------------------------------- twice

  const TWICE: seq<Option<Id>> := [Some(0), Some(0)]

  const PAIRED := NewTask.(scheduled := true, listed := TWICE)

  const D1 := Graph([FIRST, PAIRED], [0], map[1 := Call(TWICE, false, 0)], [], [0, 1])
  const D2 := Graph([FIRST.(dependents := [1]), PAIRED], [0], map[1 := Call(AFTER_FIRST, true, 0)], [], [0, 1])
  const D3 := D2.(
    tasks := [FIRST.(dependents := [1]), PAIRED.(counter := 1)], calls := map[1 := Call(AFTER_FIRST, false, 1)])
  const D4 := D2.(
    tasks := [FIRST.(dependents := [1, 1]), PAIRED.(counter := 1)], calls := map[1 := Call([], true, 1)])
  const D5 := D4.(
    tasks := [FIRST.(phase := Running, dependents := [1, 1]), PAIRED.(counter := 1)], queue := [], started := [0])
  const D6 := D5.(tasks := [
    FIRST.(phase := Flagged, completed := true, dependents := [1, 1]), PAIRED.(counter := 1)])
  const D7 := D5.(tasks := [
    FIRST.(phase := Releasing(0, []), completed := true, dependents := [1, 1]), PAIRED.(counter := 1)])
  const D8 := D5.(tasks := [FIRST.(phase := Releasing(1, [1]), completed := true, dependents := [1, 1]), PAIRED])
  const D9 := D8.(
    tasks := [FIRST.(phase := Releasing(1, [1]), completed := true, dependents := [1, 1]), PAIRED.(counter := 1)],
    calls := map[1 := Call([], false, 2)])
  const D10 := D9.(tasks := [FIRST.(phase := Releasing(2, [1, 1]), completed := true, dependents := [1, 1]), PAIRED])
  const D11 := D9.(tasks := [FIRST.(phase := Handing([1, 1]), completed := true), PAIRED])
  const D12 := D9.(tasks := [FIRST.(phase := Handing([1]), completed := true), PAIRED], queue := [1])
  const D13 := D9.(tasks := [FIRST.(phase := Handing([]), completed := true), PAIRED], queue := [1, 1])
  const D14 := D13.(
    tasks := [FIRST.(phase := Handing([]), completed := true), PAIRED.(phase := Running)],
    queue := [1], started := [0, 1])
  const RESUMED_TWICE := D14.(queue := [], started := [0, 1, 1])

  lemma DoubleFirst()
    ensures StepsTo(TWO, Begin(1, TWICE), D1) && StepsTo(D1, Register(1), D2)
  {
    assert TWICE[0] == Some(0) && TWICE[1..] == AFTER_FIRST && FIRST.dependents + [1] == [1];
    assert Next(TWO, Begin(1, TWICE)).tasks == D1.tasks;
    assert Next(D1, Register(1)).tasks == D2.tasks;
  }

  lemma DoubleSecond()
    ensures StepsTo(D2, Count(1), D3) && StepsTo(D3, Register(1), D4)
  {
    assert AFTER_FIRST[0] == Some(0) && AFTER_FIRST[1..] == [] && [1] + [1] == [1, 1];
    assert Next(D2, Count(1)).tasks == D3.tasks;
    assert Next(D3, Register(1)).tasks == D4.tasks;
  }

  lemma DoubleStarts()
    ensures StepsTo(D4, Dequeue, D5) && StepsTo(D5, Complete(0), D6)
  {
    assert Next(D4, Dequeue).tasks == D5.tasks && Next(D4, Dequeue).queue == [];
    assert Next(D5, Complete(0)).tasks == D6.tasks;
  }

  lemma DoubleRelease()
    ensures StepsTo(D6, StartRelease(0), D7) && StepsTo(D7, Release(0), D8)
  {
    assert Next(D6, StartRelease(0)).tasks == D7.tasks;
    assert Released(D7, Release(0)) == 1;
    var none: seq<Id> := [];
    assert none + [1] == [1];
    assert Next(D7, Release(0)).tasks == D8.tasks;
  }

  lemma DoubleAgain()
    ensures StepsTo(D8, Count(1), D9) && StepsTo(D9, Release(0), D10)
  {
    assert [1] + [1] == [1, 1];
    assert Next(D8, Count(1)).tasks == D9.tasks;
    assert Released(D9, Release(0)) == 1;
    assert Next(D9, Release(0)).tasks == D10.tasks;
  }

  lemma DoubleHand()
    ensures StepsTo(D10, ClearList(0), D11) && StepsTo(D11, Hand(0), D12)
  {
    assert [1, 1][1..] == [1];
    assert Next(D10, ClearList(0)).tasks == D11.tasks;
    assert Next(D11, Hand(0)).tasks == D12.tasks && Next(D11, Hand(0)).queue == [1];
  }

  lemma DoubleEnd()
    ensures StepsTo(D12, Hand(0), D13) && StepsTo(D13, Dequeue, D14) && StepsTo(D14, Dequeue, RESUMED_TWICE)
  {
    assert [1] + [1] == [1, 1] && [1, 1][1..] == [1] && [0] + [1] == [0, 1] && [0, 1] + [1] == [0, 1, 1];
    assert Next(D12, Hand(0)).tasks == D13.tasks;
    assert Next(D13, Dequeue).tasks == D14.tasks;
    assert Next(D14, Dequeue).tasks == RESUMED_TWICE.tasks && Next(D14, Dequeue).queue == [];
  }

  lemma DoubleRun() returns (steps: seq<Step>)
    ensures Reaches(steps, RESUMED_TWICE)
  {
    hide *;
    ReachTwo();
    DoubleFirst();
    DoubleSecond();
    DoubleStarts();
    DoubleRelease();
    DoubleAgain();
    DoubleHand();
    DoubleEnd();
    var s := TWO_STEPS + [Begin(1, TWICE), Register(1), Count(1), Register(1)];
    Reached4(TWO_STEPS, TWO, Begin(1, TWICE), D1, Register(1), D2, Count(1), D3, Register(1), D4);
    var r := s + [Dequeue, Complete(0), StartRelease(0), Release(0)];
    Reached4(s, D4, Dequeue, D5, Complete(0), D6, StartRelease(0), D7, Release(0), D8);
    var q := r + [Count(1), Release(0), ClearList(0), Hand(0)];
    Reached4(r, D8, Count(1), D9, Release(0), D10, ClearList(0), D11, Hand(0), D12);
    Reached(q, D12, Hand(0), D13);
    Reached(q + [Hand(0)], D13, Dequeue, D14);
    Reached(q + [Hand(0)] + [Dequeue], D14, Dequeue, RESUMED_TWICE);
    steps := q + [Hand(0)] + [Dequeue] + [Dequeue];
  }

  /** Two start jobs: a token listed twice, with the second count after the first release. */
  lemma RaceStartsTwice()
    ensures exists steps ::
              && CanRun(EmptyGraph, steps) && GroundedRun(EmptyGraph, steps)
              && After(EmptyGraph, steps).started == [0, 1, 1]
              && HasTask(After(EmptyGraph, steps), 1) && After(EmptyGraph, steps).tasks[1].phase == Running
  {
    var steps := DoubleRun();
    assert HasTask(RESUMED_TWICE, 1) && RESUMED_TWICE.tasks[1].phase == Running;
  }
}
