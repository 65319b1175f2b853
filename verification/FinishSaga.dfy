/** What happens after a task's finish was accepted (maze/core/path/path.py:
    `_continue_static_finish`, `_resume_terminal_finish_continuation`).

    A continuation has flags in memory.  A call looks at them from the top, acts, sets
    a flag and persists; any persist or send may raise, which ends the call, and a
    repeated finish message starts another one.  A send that raises was not made.  So
    a call is any number of `Progress` steps, and calls for different tasks of one run
    follow each other in any order. */
module FinishSaga {
  import opened Options

  type Task = string

  datatype Effect =
    | Notify(delivered: bool)        // the task's finish event, to the run's queue
    | Advance                        // workflow.finish_task
    | Dispatch(task: Task)           // a task that became ready
    | RecordFinish                   // the finish_workflow event
    | Announce(delivered: bool)      // the same, to the run's queue
    | Clear                          // clear_workflow, to the scheduler
    | Complete

  datatype Continuation = Continuation(
    notified: bool,
    advanced: bool,
    ready: seq<Task>,
    dispatched: set<Task>,
    recorded: bool,
    announced: bool,
    cleared: bool,
    completed: bool)

  /** `released` are the tasks `workflow.finish_task` has returned as ready so far: it
      never returns a task twice. */
  datatype World = World(
    conts: map<Task, Continuation>,
    succeeded: bool,
    blocked: bool,                   // _dispatch_requires_cleanup
    queue: bool,
    released: set<Task>,
    trace: seq<(Task, Effect)>)      // history

  datatype Action =
    | Accept(task: Task)
    | Progress(task: Task, ready: seq<Task>)
    | Succeed
    | Block(on: bool)
    | DropQueue

  const PENDING := Continuation(false, false, [], {}, false, false, false, false)

  const START := World(map[], false, false, true, {}, [])

  // ----- one step of a call -------------------------------------------------

  /** The first ready task whose dispatch is not marked sent. */
  function NextReady(ready: seq<Task>, dispatched: set<Task>): Option<Task> {
    if ready == [] then None
    else if ready[0] !in dispatched then Some(ready[0])
    else NextReady(ready[1..], dispatched)
  }

  /** What a call does next, from the flags. */
  function Next(c: Continuation, succeeded: bool, queue: bool): Option<Effect> {
    if c.completed then None
    else if !c.notified then Some(Notify(queue))
    else if !c.advanced then Some(Advance)
    else if NextReady(c.ready, c.dispatched).Some? then Some(Dispatch(NextReady(c.ready, c.dispatched).value))
    else if succeeded && !c.recorded then Some(RecordFinish)
    else if succeeded && !c.announced then Some(Announce(queue))
    else if succeeded && !c.cleared then Some(Clear)
    else Some(Complete)
  }

  function Mark(c: Continuation, e: Effect, ready: seq<Task>): Continuation {
    match e
    case Notify(_) => c.(notified := true)
    case Advance => c.(advanced := true, ready := ready)
    case Dispatch(task) => c.(dispatched := c.dispatched + {task})
    case RecordFinish => c.(recorded := true)
    case Announce(_) => c.(announced := true)
    case Clear => c.(cleared := true)
    case Complete => c.(completed := true)
  }

  predicate Distinct(ts: seq<Task>) {
    forall i, j :: 0 <= i < j < |ts| ==> ts[i] != ts[j]
  }

  function Elements(ts: seq<Task>): set<Task> {
    set t <- ts
  }

  /** What `workflow.finish_task` may return. */
  predicate MayRelease(w: World, ready: seq<Task>) {
    Distinct(ready) && Elements(ready) !! w.released
  }

  function Do(w: World, task: Task, e: Effect, ready: seq<Task>): World
    requires task in w.conts
  {
    w.(conts := w.conts[task := Mark(w.conts[task], e, ready)],
       released := if e.Advance? then w.released + Elements(ready) else w.released,
       trace := w.trace + [(task, e)])
  }

  function DoProgress(w: World, task: Task, ready: seq<Task>): World {
    if task !in w.conts || w.blocked then w
    else
      match Next(w.conts[task], w.succeeded, w.queue)
      case None => w
      case Some(e) => if e.Advance? && !MayRelease(w, ready) then w else Do(w, task, e, ready)
  }

  function Step(w: World, a: Action): World {
    match a
    case Accept(task) =>
      if task in w.conts || w.succeeded then w else w.(conts := w.conts[task := PENDING])
    case Progress(task, ready) => DoProgress(w, task, ready)
    case Succeed => w.(succeeded := true)
    case Block(on) => w.(blocked := on)
    case DropQueue => w.(queue := false)
  }

  function Run(w: World, actions: seq<Action>): World
    decreases |actions|
  {
    if actions == [] then w else Run(Step(w, actions[0]), actions[1..])
  }

  // ----- the saga's order ---------------------------------------------------

  /** The effects of one continuation, in the order they happened. */
  function Mine(trace: seq<(Task, Effect)>, task: Task): seq<Effect> {
    if trace == [] then []
    else
      Mine(trace[..|trace| - 1], task)
      + if trace[|trace| - 1].0 == task then [trace[|trace| - 1].1] else []
  }

  /** Forgetting whether anyone was listening. */
  function Kind(e: Effect): Effect {
    match e
    case Notify(_) => Notify(true)
    case Announce(_) => Announce(true)
    case _ => e
  }

  function Kinds(es: seq<Effect>): seq<Effect> {
    seq(|es|, i requires 0 <= i < |es| => Kind(es[i]))
  }

  function Dispatches(ready: seq<Task>): seq<Effect> {
    seq(|ready|, i requires 0 <= i < |ready| => Dispatch(ready[i]))
  }

  function When(flag: bool, e: Effect): seq<Effect> {
    if flag then [e] else []
  }

  /** Everything a continuation has done, read off its flags. */
  function Done(c: Continuation): seq<Effect>
    requires |c.dispatched| <= |c.ready|
  {
    When(c.notified, Notify(true)) + When(c.advanced, Advance)
    + Dispatches(c.ready[..|c.dispatched|]) + Ending(c)
  }

  function Ending(c: Continuation): seq<Effect> {
    When(c.recorded, RecordFinish) + When(c.announced, Announce(true)) + When(c.cleared, Clear)
    + When(c.completed, Complete)
  }

  ghost predicate ContinuationOk(c: Continuation, succeeded: bool) {
    && Distinct(c.ready) && |c.dispatched| <= |c.ready|
    && c.dispatched == Elements(c.ready[..|c.dispatched|])
    && (c.advanced ==> c.notified)
    && (!c.advanced ==> c.ready == [] && !c.recorded && !c.completed)
    && (c.recorded ==> succeeded && |c.dispatched| == |c.ready|)
    && (c.announced ==> c.recorded) && (c.cleared ==> c.announced)
    && (c.completed ==> |c.dispatched| == |c.ready| && (c.recorded ==> c.cleared))
  }

  ghost predicate TaskOk(w: World, task: Task) {
    if task in w.conts then
      ContinuationOk(w.conts[task], w.succeeded)
      && Kinds(Mine(w.trace, task)) == Done(w.conts[task])
      && Elements(w.conts[task].ready) <= w.released
    else Mine(w.trace, task) == []
  }

  /** No task became ready twice. */
  ghost predicate ReadyOnce(w: World) {
    forall s <- w.conts, t <- w.conts :: s != t ==> Elements(w.conts[s].ready) !! Elements(w.conts[t].ready)
  }

  ghost predicate Inv(w: World) {
    (forall task: Task :: TaskOk(w, task)) && ReadyOnce(w)
  }

  lemma {:induction false} NextReadySkips(ready: seq<Task>, dispatched: set<Task>, n: nat)
    requires n <= |ready| && forall i :: 0 <= i < n ==> ready[i] in dispatched
    requires n < |ready| ==> ready[n] !in dispatched
    ensures NextReady(ready, dispatched) == if n < |ready| then Some(ready[n]) else None
  {
    if n > 0 { NextReadySkips(ready[1..], dispatched, n - 1); }
  }

  lemma NextReadyIs(c: Continuation, succeeded: bool)
    requires ContinuationOk(c, succeeded)
    ensures NextReady(c.ready, c.dispatched)
            == if |c.dispatched| < |c.ready| then Some(c.ready[|c.dispatched|]) else None
  {
    var n := |c.dispatched|;
    assert forall i :: 0 <= i < n ==> c.ready[..n][i] in c.dispatched;
    if n < |c.ready| {
      assert forall x <- c.ready[..n] :: x != c.ready[n];
    }
    NextReadySkips(c.ready, c.dispatched, n);
  }

  lemma MineAppend(trace: seq<(Task, Effect)>, task: Task, e: Effect, other: Task)
    ensures Mine(trace + [(task, e)], other) == Mine(trace, other) + if task == other then [e] else []
  {
    assert (trace + [(task, e)])[..|trace|] == trace;
  }

  lemma KindsAppend(es: seq<Effect>, e: Effect)
    ensures Kinds(es + [e]) == Kinds(es) + [Kind(e)]
  {
  }

  lemma DoneWhileDispatching(c: Continuation)
    requires |c.dispatched| <= |c.ready| && c.notified && c.advanced
    requires !c.recorded && !c.announced && !c.cleared && !c.completed
    ensures Done(c) == [Notify(true), Advance] + Dispatches(c.ready[..|c.dispatched|])
  {
  }

  lemma ElementsSnoc(ts: seq<Task>, n: nat)
    requires n < |ts|
    ensures Elements(ts[..n + 1]) == Elements(ts[..n]) + {ts[n]}
    ensures Distinct(ts) ==> ts[n] !in Elements(ts[..n])
  {
    assert ts[..n + 1] == ts[..n] + [ts[n]];
  }

  lemma DispatchesSnoc(ts: seq<Task>, n: nat)
    requires n < |ts|
    ensures Dispatches(ts[..n + 1]) == Dispatches(ts[..n]) + [Dispatch(ts[n])]
  {
    assert ts[..n + 1] == ts[..n] + [ts[n]];
  }

  lemma DispatchIsNext(c: Continuation, succeeded: bool, task: Task)
    requires ContinuationOk(c, succeeded) && NextReady(c.ready, c.dispatched) == Some(task)
    ensures |c.dispatched| < |c.ready| && c.ready[|c.dispatched|] == task && task !in c.dispatched
  {
    NextReadyIs(c, succeeded);
    hide NextReady;
    if |c.dispatched| < |c.ready| { ElementsSnoc(c.ready, |c.dispatched|); }
  }

  lemma DispatchStaysOk(c: Continuation, succeeded: bool, task: Task)
    requires ContinuationOk(c, succeeded) && c.advanced && !c.completed && task !in c.dispatched
    requires |c.dispatched| < |c.ready| && c.ready[|c.dispatched|] == task
    ensures ContinuationOk(c.(dispatched := c.dispatched + {task}), succeeded)
  {
    ElementsSnoc(c.ready, |c.dispatched|);
    hide Elements, Distinct;
    assert |c.dispatched + {task}| == |c.dispatched| + 1;
  }

  lemma DispatchAppends(c: Continuation, task: Task)
    requires |c.dispatched| < |c.ready| && c.ready[|c.dispatched|] == task && task !in c.dispatched
    requires c.notified && c.advanced && !c.recorded && !c.announced && !c.cleared && !c.completed
    ensures Done(c.(dispatched := c.dispatched + {task})) == Done(c) + [Dispatch(task)]
  {
    DispatchesSnoc(c.ready, |c.dispatched|);
    assert |c.dispatched + {task}| == |c.dispatched| + 1;
    DoneWhileDispatching(c);
    DoneWhileDispatching(c.(dispatched := c.dispatched + {task}));
    hide Done, Dispatches;
  }

  /** Dispatching the next ready task. */
  lemma DispatchMarks(c: Continuation, succeeded: bool, task: Task)
    requires ContinuationOk(c, succeeded) && NextReady(c.ready, c.dispatched) == Some(task)
    requires c.notified && c.advanced && !c.completed
    ensures var d := Mark(c, Dispatch(task), []);
            ContinuationOk(d, succeeded) && Done(d) == Done(c) + [Dispatch(task)]
  {
    DispatchIsNext(c, succeeded, task);
    hide NextReady, Done, Elements, Distinct;
    DispatchStaysOk(c, succeeded, task);
    DispatchAppends(c, task);
  }

  lemma AdvanceMarks(c: Continuation, succeeded: bool, ready: seq<Task>)
    requires ContinuationOk(c, succeeded) && c.notified && !c.advanced && Distinct(ready)
    ensures var d := Mark(c, Advance, ready);
            ContinuationOk(d, succeeded) && Done(d) == Done(c) + [Advance]
  {
    assert c.dispatched == {};
  }

  lemma NotifyMarks(c: Continuation, succeeded: bool, queue: bool)
    requires ContinuationOk(c, succeeded) && !c.notified
    ensures var d := Mark(c, Notify(queue), []);
            ContinuationOk(d, succeeded) && Done(d) == Done(c) + [Kind(Notify(queue))]
  {
    assert c.dispatched == {};
    hide Elements, Distinct;
  }

  /** A mark at the end of the list leaves the dispatches alone. */
  lemma EndMarks(c: Continuation, succeeded: bool, e: Effect)
    requires ContinuationOk(c, succeeded) && |c.dispatched| == |c.ready| && c.advanced && !c.completed
    requires match e
             case RecordFinish => succeeded && !c.recorded
             case Announce(_) => c.recorded && !c.announced
             case Clear => c.announced && !c.cleared
             case Complete => c.recorded ==> c.cleared
             case _ => false
    ensures var d := Mark(c, e, []); ContinuationOk(d, succeeded) && Done(d) == Done(c) + [Kind(e)]
  {
    var d := Mark(c, e, []);
    assert Ending(d) == Ending(c) + [Kind(e)];
    hide Dispatches, Elements, Distinct, Ending;
  }

  /** Every step adds one effect at the end and sets its flag. */
  lemma NextMarks(c: Continuation, succeeded: bool, queue: bool, ready: seq<Task>)
    requires ContinuationOk(c, succeeded) && Next(c, succeeded, queue).Some? && Distinct(ready)
    ensures var e := Next(c, succeeded, queue).value;
            var d := Mark(c, e, ready);
            ContinuationOk(d, succeeded) && Done(d) == Done(c) + [Kind(e)]
  {
    var e := Next(c, succeeded, queue).value;
    NextReadyIs(c, succeeded);
    match e
    case Dispatch(task) => DispatchMarks(c, succeeded, task);
    case Advance => AdvanceMarks(c, succeeded, ready);
    case Notify(_) => NotifyMarks(c, succeeded, queue);
    case _ => EndMarks(c, succeeded, e);
    hide Done, NextReady, Elements, Distinct;
  }

  /** The step `e` of `task` and the effect it leaves. */
  lemma DoKeepsOwn(w: World, task: Task, e: Effect, ready: seq<Task>)
    requires task in w.conts && TaskOk(w, task)
    requires Next(w.conts[task], w.succeeded, w.queue) == Some(e) && (e.Advance? ==> MayRelease(w, ready))
    ensures TaskOk(Do(w, task, e, ready), task)
  {
    var c := w.conts[task];
    var r := if e.Advance? then ready else [];
    NextMarks(c, w.succeeded, w.queue, r);
    assert Mark(c, e, ready) == Mark(c, e, r);
    assert Elements(Mark(c, e, r).ready) <= Elements(c.ready) + if e.Advance? then Elements(ready) else {};
    MineAppend(w.trace, task, e, task);
    KindsAppend(Mine(w.trace, task), e);
    hide Next, ContinuationOk, Done, Kinds, Mine, Mark, Elements;
  }

  lemma DoKeepsOther(w: World, task: Task, e: Effect, ready: seq<Task>, other: Task)
    requires task in w.conts && TaskOk(w, other) && other != task
    ensures TaskOk(Do(w, task, e, ready), other)
  {
    MineAppend(w.trace, task, e, other);
    assert Mine(w.trace, other) + [] == Mine(w.trace, other);
    hide ContinuationOk, Done, Kinds, Mine, Mark;
  }

  lemma DoReadyOnce(w: World, task: Task, e: Effect, ready: seq<Task>)
    requires task in w.conts && ReadyOnce(w) && (forall t <- w.conts :: Elements(w.conts[t].ready) <= w.released)
    requires e.Advance? ==> MayRelease(w, ready)
    ensures ReadyOnce(Do(w, task, e, ready))
  {
  }

  lemma ProgressKeeps(w: World, task: Task, ready: seq<Task>)
    requires Inv(w)
    ensures Inv(DoProgress(w, task, ready))
  {
    var v := DoProgress(w, task, ready);
    if v != w {
      var e := Next(w.conts[task], w.succeeded, w.queue).value;
      assert v == Do(w, task, e, ready);
      assert forall t <- w.conts :: TaskOk(w, t);
      DoReadyOnce(w, task, e, ready);
      hide DoProgress, ReadyOnce, Do, TaskOk;
      forall other: Task ensures TaskOk(v, other) {
        assert TaskOk(w, task) && TaskOk(w, other);
        if other == task { DoKeepsOwn(w, task, e, ready); } else { DoKeepsOther(w, task, e, ready, other); }
      }
    }
  }

  lemma StepKeeps(w: World, a: Action)
    requires Inv(w)
    ensures Inv(Step(w, a))
  {
    if a.Progress? { ProgressKeeps(w, a.task, a.ready); }
    else {
      var v := Step(w, a);
      forall task: Task ensures TaskOk(v, task) {
        assert TaskOk(w, task);
        hide Mine, Kinds;
      }
    }
    hide DoProgress, TaskOk;
  }

  lemma {:induction false} RunKeeps(w: World, actions: seq<Action>)
    requires Inv(w)
    ensures Inv(Run(w, actions))
    decreases |actions|
  {
    if actions != [] {
      StepKeeps(w, actions[0]);
      RunKeeps(Step(w, actions[0]), actions[1..]);
    }
  }

  // ----- at most once, in order, and all of it when completed ---------------

  /** A continuation that completes before its run has succeeded. */
  function Short(ready: seq<Task>): seq<Effect> {
    [Notify(true), Advance] + Dispatches(ready) + [Complete]
  }

  /** One that finds the run succeeded. */
  function Full(ready: seq<Task>): seq<Effect> {
    [Notify(true), Advance] + Dispatches(ready) + [RecordFinish, Announce(true), Clear, Complete]
  }

  lemma Reachable(actions: seq<Action>, task: Task)
    ensures Inv(Run(START, actions)) && TaskOk(Run(START, actions), task)
  {
    RunKeeps(START, actions);
  }

  lemma PartIsOrdered(c: Continuation)
    requires |c.dispatched| <= |c.ready| && c.notified && c.advanced
    requires !c.recorded && !c.announced && !c.cleared && !c.completed
    ensures Done(c) <= Short(c.ready)
  {
    DoneWhileDispatching(c);
    hide Done;
    assert Dispatches(c.ready[..|c.dispatched|]) <= Dispatches(c.ready);
  }

  function LastSteps(recorded: bool): seq<Effect> {
    if recorded then [RecordFinish, Announce(true), Clear, Complete] else [Complete]
  }

  lemma EndingIsOrdered(c: Continuation)
    requires (c.announced ==> c.recorded) && (c.cleared ==> c.announced)
    requires c.completed ==> (c.recorded ==> c.cleared)
    ensures Ending(c) <= LastSteps(c.recorded)
    ensures c.completed ==> Ending(c) == LastSteps(c.recorded)
  {
  }

  lemma PrefixAfter(a: seq<Effect>, b: seq<Effect>, c: seq<Effect>)
    requires b <= c
    ensures a + b <= a + c
  {
  }

  lemma EndIsOrdered(c: Continuation)
    requires |c.dispatched| == |c.ready| && c.notified && c.advanced
    requires (c.announced ==> c.recorded) && (c.cleared ==> c.announced)
    requires c.completed ==> (c.recorded ==> c.cleared)
    ensures Done(c) <= (if c.recorded then Full(c.ready) else Short(c.ready))
    ensures c.completed ==> Done(c) == (if c.recorded then Full(c.ready) else Short(c.ready))
  {
    assert c.ready[..|c.dispatched|] == c.ready;
    EndingIsOrdered(c);
    var start := [Notify(true), Advance] + Dispatches(c.ready);
    hide Dispatches, Ending;
    assert Done(c) == start + Ending(c);
    PrefixAfter(start, Ending(c), LastSteps(c.recorded));
    hide Done;
  }

  lemma DoneIsOrdered(c: Continuation, succeeded: bool)
    requires ContinuationOk(c, succeeded)
    ensures Done(c) <= Short(c.ready) || Done(c) <= Full(c.ready)
    ensures c.completed ==> Done(c) == if c.recorded then Full(c.ready) else Short(c.ready)
  {
    if !c.advanced {
      assert Done(c) <= [Notify(true)];
    } else if |c.dispatched| < |c.ready| {
      PartIsOrdered(c);
    } else {
      EndIsOrdered(c);
    }
  }

  /** For any failures and any number of resumed calls, what a continuation has done is
      a prefix of the saga, each ready task once; when it is completed it has done the
      whole saga. */
  lemma SagaIsOrdered(actions: seq<Action>, task: Task)
    requires task in Run(START, actions).conts
    ensures var w := Run(START, actions); var c := w.conts[task];
            var done := Kinds(Mine(w.trace, task));
            && Distinct(c.ready)
            && (done <= Short(c.ready) || done <= Full(c.ready))
            && (c.completed ==> done == Short(c.ready) || done == Full(c.ready))
  {
    Reachable(actions, task);
    var w := Run(START, actions);
    DoneIsOrdered(w.conts[task], w.succeeded);
  }

  predicate Promises(w: World, task: Task) {
    w.succeeded && task in w.conts && (w.conts[task].completed ==> w.conts[task].cleared)
  }

  lemma PromiseStays(w: World, a: Action, task: Task)
    requires Promises(w, task)
    ensures Promises(Step(w, a), task)
  {
    hide NextReady;
  }

  lemma {:induction false} PromiseKept(w: World, actions: seq<Action>, task: Task)
    requires Promises(w, task)
    ensures Promises(Run(w, actions), task)
    decreases |actions|
  {
    if actions != [] {
      PromiseStays(w, actions[0], task);
      PromiseKept(Step(w, actions[0]), actions[1..], task);
    }
  }

  /** A continuation that was not completed when its run succeeded completes only after
      recording, announcing and clearing, each once. */
  lemma SuccessIsAnnounced(before: seq<Action>, after: seq<Action>, task: Task)
    requires var w := Run(START, before); w.succeeded && task in w.conts && !w.conts[task].completed
    requires task in Run(Run(START, before), after).conts
    requires Run(Run(START, before), after).conts[task].completed
    ensures var v := Run(Run(START, before), after);
            Kinds(Mine(v.trace, task)) == Full(v.conts[task].ready)
  {
    Reachable(before, task);
    var w := Run(START, before);
    PromiseKept(w, after, task);
    RunKeeps(w, after);
    var v := Run(w, after);
    assert TaskOk(v, task);
    DoneIsOrdered(v.conts[task], v.succeeded);
  }

  lemma {:induction false} MineContains(trace: seq<(Task, Effect)>, i: nat)
    requires i < |trace|
    ensures trace[i].1 in Mine(trace, trace[i].0)
  {
    if i < |trace| - 1 { MineContains(trace[..|trace| - 1], i); }
  }

  lemma {:induction false} MinePrefix(trace: seq<(Task, Effect)>, n: nat, task: Task)
    requires n <= |trace|
    ensures Mine(trace[..n], task) <= Mine(trace, task)
  {
    if n < |trace| {
      MinePrefix(trace[..|trace| - 1], n, task);
      assert trace[..|trace| - 1][..n] == trace[..n];
    } else {
      assert trace[..n] == trace;
    }
  }

  /** Two places in a trace are two places in the view of their task. */
  lemma MineRepeats(trace: seq<(Task, Effect)>, i: nat, j: nat) returns (k: nat, l: nat)
    requires i < j < |trace| && trace[i] == trace[j]
    ensures k < l < |Mine(trace, trace[i].0)|
    ensures Mine(trace, trace[i].0)[k] == Mine(trace, trace[i].0)[l] == trace[i].1
  {
    var task, e := trace[i].0, trace[i].1;
    var early := trace[..j];
    MineContains(early, i);
    k :| 0 <= k < |Mine(early, task)| && Mine(early, task)[k] == e;
    l := |Mine(early, task)|;
    var upto := trace[..j + 1];
    assert upto[..j] == early;
    assert Mine(upto, task) == Mine(early, task) + [e];
    MinePrefix(trace, j + 1, task);
  }

  /** Where a saga dispatches. */
  lemma DispatchAt(ready: seq<Task>, tail: seq<Effect>, k: nat, task: Task)
    requires forall e <- tail :: !e.Dispatch?
    requires k < |ready| + 2 + |tail| && ([Notify(true), Advance] + Dispatches(ready) + tail)[k] == Dispatch(task)
    ensures 2 <= k < |ready| + 2 && ready[k - 2] == task
  {
  }

  lemma DoneDispatchesAt(c: Continuation, succeeded: bool, k: nat, task: Task)
    requires ContinuationOk(c, succeeded) && k < |Done(c)| && Done(c)[k] == Dispatch(task)
    ensures 2 <= k < |c.ready| + 2 && c.ready[k - 2] == task
  {
    DoneIsOrdered(c, succeeded);
    var tail := if Done(c) <= Short(c.ready) then [Complete] else [RecordFinish, Announce(true), Clear, Complete];
    hide Done, ContinuationOk;
    assert Done(c) <= [Notify(true), Advance] + Dispatches(c.ready) + tail;
    hide Short, Full;
    DispatchAt(c.ready, tail, k, task);
  }

  lemma DoneDispatchesOnce(c: Continuation, succeeded: bool, k: nat, l: nat, ready: Task)
    requires ContinuationOk(c, succeeded) && k < |Done(c)| && l < |Done(c)|
    requires Done(c)[k] == Done(c)[l] == Dispatch(ready)
    ensures k == l && ready in Elements(c.ready)
  {
    DoneDispatchesAt(c, succeeded, k, ready);
    DoneDispatchesAt(c, succeeded, l, ready);
    hide Done;
  }

  lemma KindsDispatch(es: seq<Effect>, k: nat, ready: Task)
    requires k < |es|
    ensures es[k] == Dispatch(ready) <==> Kinds(es)[k] == Dispatch(ready)
  {
  }

  /** No task is dispatched twice in the whole run, by whatever continuation. */
  lemma ReadyTasksAreDispatchedOnce(actions: seq<Action>, i: nat, j: nat)
    requires i < j < |Run(START, actions).trace|
    requires Run(START, actions).trace[i].1.Dispatch?
    ensures Run(START, actions).trace[i].1 != Run(START, actions).trace[j].1
  {
    var w := Run(START, actions);
    if w.trace[i].1 == w.trace[j].1 {
      var ready := w.trace[i].1.task;
      var s, t := w.trace[i].0, w.trace[j].0;
      Reachable(actions, s);
      Reachable(actions, t);
      DispatchedIsReady(w, i, ready);
      DispatchedIsReady(w, j, ready);
      assert s == t;
      var k, l := MineRepeats(w.trace, i, j);
      KindsDispatch(Mine(w.trace, s), k, ready);
      KindsDispatch(Mine(w.trace, s), l, ready);
      DoneDispatchesOnce(w.conts[s], w.succeeded, k, l, ready);
      assert false;
    }
  }

  lemma DispatchedIsReady(w: World, i: nat, ready: Task)
    requires i < |w.trace| && w.trace[i].1 == Dispatch(ready) && TaskOk(w, w.trace[i].0)
    ensures w.trace[i].0 in w.conts && ready in Elements(w.conts[w.trace[i].0].ready)
  {
    var s := w.trace[i].0;
    MineContains(w.trace, i);
    var k :| 0 <= k < |Mine(w.trace, s)| && Mine(w.trace, s)[k] == Dispatch(ready);
    KindsDispatch(Mine(w.trace, s), k, ready);
    DoneDispatchesOnce(w.conts[s], w.succeeded, k, k, ready);
  }

  // ----- how often a run is cleared -----------------------------------------

  /** How often the scheduler is told to clear the run. */
  function Clears(trace: seq<(Task, Effect)>): nat {
    if trace == [] then 0
    else Clears(trace[..|trace| - 1]) + if trace[|trace| - 1].1.Clear? then 1 else 0
  }

  function ClearedIn(conts: map<Task, Continuation>): set<Task> {
    set t <- conts | conts[t].cleared
  }

  function ClearedBy(w: World): set<Task> {
    ClearedIn(w.conts)
  }

  function Open(w: World): set<Task> {
    set t <- w.conts | !w.conts[t].completed
  }

  lemma ClearsAppend(trace: seq<(Task, Effect)>, task: Task, e: Effect)
    ensures Clears(trace + [(task, e)]) == Clears(trace) + if e.Clear? then 1 else 0
  {
    assert (trace + [(task, e)])[..|trace|] == trace;
  }

  ghost predicate ClearsOk(w: World) {
    Clears(w.trace) == |ClearedBy(w)|
  }

  lemma ClearedInsert(conts: map<Task, Continuation>, task: Task, c: Continuation)
    requires task in conts
    ensures ClearedIn(conts[task := c]) == if c.cleared then ClearedIn(conts) + {task} else ClearedIn(conts) - {task}
  {
  }

  lemma DoClears(w: World, task: Task, e: Effect, ready: seq<Task>)
    requires ClearsOk(w) && task in w.conts && (e.Clear? ==> !w.conts[task].cleared)
    ensures ClearsOk(Do(w, task, e, ready))
  {
    var c := Mark(w.conts[task], e, ready);
    assert c.cleared <==> w.conts[task].cleared || e.Clear?;
    assert task in ClearedIn(w.conts) <==> w.conts[task].cleared;
    hide Clears, Mark, ClearedIn, MayRelease, Elements;
    ClearsAppend(w.trace, task, e);
    ClearedInsert(w.conts, task, c);
    if c.cleared && !e.Clear? { assert ClearedIn(w.conts) + {task} == ClearedIn(w.conts); }
    if !c.cleared { assert ClearedIn(w.conts) - {task} == ClearedIn(w.conts); }
  }

  lemma StepClears(w: World, a: Action)
    requires ClearsOk(w)
    ensures ClearsOk(Step(w, a))
  {
    var v := Step(w, a);
    hide NextReady;
    if a.Progress? && v != w {
      DoClears(w, a.task, Next(w.conts[a.task], w.succeeded, w.queue).value, a.ready);
      hide ClearsOk, Do;
    } else {
      assert ClearedBy(v) == ClearedBy(w);
    }
  }

  lemma {:induction false} RunClears(w: World, actions: seq<Action>)
    requires ClearsOk(w)
    ensures ClearsOk(Run(w, actions))
    decreases |actions|
  {
    if actions != [] {
      StepClears(w, actions[0]);
      RunClears(Step(w, actions[0]), actions[1..]);
    }
  }

  /** After success no continuation is created and a completed one does nothing more. */
  lemma StepAfterSuccess(w: World, a: Action, open: set<Task>)
    requires w.succeeded && Open(w) <= open && ClearedBy(w) <= open
    ensures var v := Step(w, a); v.succeeded && Open(v) <= open && ClearedBy(v) <= open
  {
    hide NextReady;
  }

  lemma {:induction false} RunAfterSuccess(w: World, actions: seq<Action>, open: set<Task>)
    requires w.succeeded && Open(w) <= open && ClearedBy(w) <= open
    ensures var v := Run(w, actions); v.succeeded && Open(v) <= open && ClearedBy(v) <= open
    decreases |actions|
  {
    if actions != [] {
      StepAfterSuccess(w, actions[0], open);
      RunAfterSuccess(Step(w, actions[0]), actions[1..], open);
    }
  }

  // ----- an undisturbed call ------------------------------------------------

  lemma {:induction false} RunConcat(w: World, a: seq<Action>, b: seq<Action>)
    ensures Run(w, a + b) == Run(Run(w, a), b)
    decreases |a|
  {
    if a == [] {
      assert a + b == b;
    } else {
      assert (a + b)[1..] == a[1..] + b;
      RunConcat(Step(w, a[0]), a[1..], b);
    }
  }

  /** `n` steps of one call. */
  function Steps(w: World, task: Task, ready: seq<Task>, n: nat): World {
    if n == 0 then w else DoProgress(Steps(w, task, ready, n - 1), task, ready)
  }

  lemma {:induction false} StepsAreARun(w: World, task: Task, ready: seq<Task>, n: nat)
    ensures Steps(w, task, ready, n) == Run(w, seq(n, _ => Progress(task, ready)))
  {
    if n > 0 {
      StepsAreARun(w, task, ready, n - 1);
      var a := Progress(task, ready);
      var actions := seq(n, _ => a);
      var fewer := seq(n - 1, _ => a);
      assert actions == fewer + [a] && seq(n - 1, _ => Progress(task, ready)) == fewer;
      RunConcat(w, fewer, [a]);
      assert Run(Run(w, fewer), [a]) == Step(Run(w, fewer), a);
    }
  }

  lemma StepsNext(w: World, task: Task, ready: seq<Task>, n: nat)
    requires n > 0
    ensures Steps(w, task, ready, n) == DoProgress(Steps(w, task, ready, n - 1), task, ready)
  {
  }

  lemma {:induction false} StepsAdd(w: World, task: Task, ready: seq<Task>, m: nat, n: nat)
    ensures Steps(Steps(w, task, ready, m), task, ready, n) == Steps(w, task, ready, m + n)
  {
    if n > 0 { StepsAdd(w, task, ready, m, n - 1); }
  }

  /** How many effects an undisturbed call has still to do, when `workflow.finish_task`
      returns `ready`. */
  function Left(c: Continuation, succeeded: bool, ready: seq<Task>): int {
    if c.completed then 0
    else
      (if c.notified then 0 else 1) + (if c.advanced then |c.ready| - |c.dispatched| else 1 + |ready|)
      + (if succeeded then Announcements(c) else 0) + 1
  }

  function Announcements(c: Continuation): int {
    (if c.recorded then 0 else 1) + (if c.announced then 0 else 1) + (if c.cleared then 0 else 1)
  }

  lemma DispatchLowers(c: Continuation, succeeded: bool, task: Task, ready: seq<Task>)
    requires ContinuationOk(c, succeeded) && NextReady(c.ready, c.dispatched) == Some(task)
    requires c.advanced && !c.completed
    ensures Left(Mark(c, Dispatch(task), ready), succeeded, ready) == Left(c, succeeded, ready) - 1
  {
    DispatchIsNext(c, succeeded, task);
    assert |c.dispatched + {task}| == |c.dispatched| + 1;
    hide ContinuationOk, NextReady;
  }

  lemma MarkLowers(c: Continuation, succeeded: bool, queue: bool, ready: seq<Task>)
    requires ContinuationOk(c, succeeded) && Next(c, succeeded, queue).Some?
    ensures Left(Mark(c, Next(c, succeeded, queue).value, ready), succeeded, ready) == Left(c, succeeded, ready) - 1
    ensures Left(c, succeeded, ready) > 0
  {
    NextReadyIs(c, succeeded);
    var e := Next(c, succeeded, queue).value;
    if e.Dispatch? { DispatchLowers(c, succeeded, e.task, ready); }
    hide NextReady, Distinct, Elements;
  }

  /** Where an undisturbed call may go on. */
  ghost predicate Undisturbed(w: World, task: Task, ready: seq<Task>) {
    Inv(w) && task in w.conts && !w.blocked && (w.conts[task].advanced || MayRelease(w, ready))
  }

  lemma CallStepIs(w: World, task: Task, ready: seq<Task>) returns (e: Effect)
    requires task in w.conts && !w.conts[task].completed && !w.blocked
    requires w.conts[task].advanced || MayRelease(w, ready)
    ensures Next(w.conts[task], w.succeeded, w.queue) == Some(e) && (e.Advance? ==> MayRelease(w, ready))
    ensures DoProgress(w, task, ready) == Do(w, task, e, ready)
  {
    e := Next(w.conts[task], w.succeeded, w.queue).value;
    hide NextReady, MayRelease;
  }

  lemma MarkAdvances(c: Continuation, e: Effect, ready: seq<Task>)
    ensures Mark(c, e, ready).advanced <==> c.advanced || e.Advance?
  {
  }

  /** Nothing but the continuation of `task` may differ. */
  ghost predicate Apart(w: World, v: World, task: Task) {
    && v.succeeded == w.succeeded && v.blocked == w.blocked && v.conts.Keys == w.conts.Keys
    && forall t <- w.conts :: t != task ==> v.conts[t] == w.conts[t]
  }

  lemma ApartAgain(w: World, u: World, v: World, task: Task)
    requires Apart(w, u, task) && Apart(u, v, task)
    ensures Apart(w, v, task)
  {
  }

  lemma DoIsApart(w: World, task: Task, e: Effect, ready: seq<Task>)
    requires task in w.conts
    ensures Apart(w, Do(w, task, e, ready), task)
    ensures |Mine(Do(w, task, e, ready).trace, task)| == |Mine(w.trace, task)| + 1
  {
    MineAppend(w.trace, task, e, task);
    hide Mine, Mark, Elements;
  }

  lemma CallStep(w: World, task: Task, ready: seq<Task>)
    requires Undisturbed(w, task, ready) && !w.conts[task].completed
    ensures var v := DoProgress(w, task, ready);
            && Undisturbed(v, task, ready) && Apart(w, v, task)
            && Left(v.conts[task], w.succeeded, ready) == Left(w.conts[task], w.succeeded, ready) - 1
            && Left(w.conts[task], w.succeeded, ready) > 0
            && |Mine(v.trace, task)| == |Mine(w.trace, task)| + 1
  {
    ProgressKeeps(w, task, ready);
    assert TaskOk(w, task) && ContinuationOk(w.conts[task], w.succeeded);
    hide Inv, TaskOk, Next, Left, Mark, DoProgress, ContinuationOk, Elements, Distinct, MayRelease, Mine;
    var e := CallStepIs(w, task, ready);
    MarkLowers(w.conts[task], w.succeeded, w.queue, ready);
    MarkAdvances(w.conts[task], e, ready);
    DoIsApart(w, task, e, ready);
    hide Apart;
  }

  /** `n` steps of one call, and no fewer effects, complete the continuation. */
  ghost predicate Completes(w: World, task: Task, ready: seq<Task>, n: nat) {
    var v := Steps(w, task, ready, n);
    && Inv(v) && Apart(w, v, task)
    && task in v.conts && v.conts[task].completed && |Mine(v.trace, task)| == |Mine(w.trace, task)| + n
  }

  lemma CallGoesOn(w: World, task: Task, ready: seq<Task>, n: nat)
    requires n > 0 && Undisturbed(w, task, ready) && !w.conts[task].completed
    requires Completes(DoProgress(w, task, ready), task, ready, n - 1)
    ensures Completes(w, task, ready, n)
  {
    var u := DoProgress(w, task, ready);
    assert Steps(w, task, ready, 0) == w && Steps(w, task, ready, 1) == u;
    hide Steps, Mine;
    CallStep(w, task, ready);
    hide Undisturbed, Inv, Apart, DoProgress;
    StepsAdd(w, task, ready, 1, n - 1);
    ApartAgain(w, u, Steps(u, task, ready, n - 1), task);
  }

  /** An undisturbed call, of a run that has succeeded or not, completes its continuation
      by exactly the effects left to it and touches no other continuation. */
  lemma {:induction false} CallCompletes(w: World, task: Task, ready: seq<Task>)
    requires Undisturbed(w, task, ready)
    ensures var n := Left(w.conts[task], w.succeeded, ready); n >= 0 && Completes(w, task, ready, n)
    decreases Left(w.conts[task], w.succeeded, ready)
  {
    var n := Left(w.conts[task], w.succeeded, ready);
    if w.conts[task].completed {
      assert Steps(w, task, ready, 0) == w;
    } else {
      CallStep(w, task, ready);
      var u := DoProgress(w, task, ready);
      assert u.succeeded == w.succeeded;
      hide Completes, Inv, DoProgress, MayRelease, Left;
      CallCompletes(u, task, ready);
      CallGoesOn(w, task, ready, n);
    }
  }

  lemma {:induction false} CompletedIsLeftAlone(w: World, task: Task, ready: seq<Task>, n: nat)
    requires task in w.conts && w.conts[task].completed
    ensures Steps(w, task, ready, n) == w
  {
    if n > 0 { CompletedIsLeftAlone(w, task, ready, n - 1); }
  }

  /** A call that may do as much as is left completes. */
  lemma CallIsEnough(w: World, task: Task, ready: seq<Task>, budget: nat)
    requires Undisturbed(w, task, ready) && budget >= Left(w.conts[task], w.succeeded, ready)
    ensures var v := Steps(w, task, ready, budget); task in v.conts && v.conts[task].completed
  {
    var n := Left(w.conts[task], w.succeeded, ready);
    CallCompletes(w, task, ready);
    hide Left, Inv, Apart;
    StepsAdd(w, task, ready, n, budget - n);
    CompletedIsLeftAlone(Steps(w, task, ready, n), task, ready, budget - n);
  }

  // ----- a finish is carried out --------------------------------------------

  lemma MarkReady(c: Continuation, e: Effect, ready: seq<Task>)
    ensures var d := Mark(c, e, ready); if e.Advance? then d.ready == ready else d.ready == c.ready
    ensures Mark(c, e, ready).advanced <==> c.advanced || e.Advance?
  {
  }

  /** What became ready is what `workflow.finish_task` returned when the call advanced. */
  lemma {:induction false} StepsReady(w: World, task: Task, ready: seq<Task>, n: nat)
    requires task in w.conts && (w.conts[task].advanced ==> w.conts[task].ready == ready)
    ensures var v := Steps(w, task, ready, n);
            task in v.conts && (v.conts[task].advanced ==> v.conts[task].ready == ready)
  {
    if n > 0 {
      StepsReady(w, task, ready, n - 1);
      var u := Steps(w, task, ready, n - 1);
      hide Steps, NextReady, MayRelease;
      if Next(u.conts[task], u.succeeded, u.queue).Some? {
        MarkReady(u.conts[task], Next(u.conts[task], u.succeeded, u.queue).value, ready);
      }
      hide Next, Mark;
    }
  }

  /** An accepted finish of a run that is neither over nor being cleaned up, not accepted
      before: undisturbed, the call notifies, advances the workflow, dispatches what became
      ready in order, and, if the run succeeded meanwhile, records, announces and clears;
      then it is completed. */
  lemma {:induction false} FinishIsCarriedOut(before: seq<Action>, task: Task, ready: seq<Task>, succeeds: bool)
    requires var w := Run(START, before); !w.succeeded && !w.blocked && task !in w.conts && MayRelease(w, ready)
    ensures var accepted := Step(Run(START, before), Accept(task));
            var w := if succeeds then Step(accepted, Succeed) else accepted;
            var v := Steps(w, task, ready, 3 + |ready| + if succeeds then 3 else 0);
            && task in v.conts && v.conts[task].completed
            && Kinds(Mine(v.trace, task))
               == [Notify(true), Advance] + Dispatches(ready)
                  + (if succeeds then [RecordFinish, Announce(true), Clear] else []) + [Complete]
  {
    var w0 := Run(START, before);
    RunKeeps(START, before);
    var accepted := Step(w0, Accept(task));
    StepKeeps(w0, Accept(task));
    StepKeeps(accepted, Succeed);
    var w := if succeeds then Step(accepted, Succeed) else accepted;
    assert w.conts[task] == PENDING && w.succeeded == succeeds && MayRelease(w, ready);
    hide Run, Inv;
    CallCompletes(w, task, ready);
    var n := 3 + |ready| + if succeeds then 3 else 0;
    assert n == Left(PENDING, succeeds, ready);
    StepsReady(w, task, ready, n);
    var v := Steps(w, task, ready, n);
    assert Inv(v) && Apart(w, v, task) && v.conts[task].completed;
    assert TaskOk(v, task) by { InvAt(v, task); }
    hide Steps, Completes, MayRelease, Left, Step, Mine;
    CompletedIs(v.conts[task], succeeds, ready);
  }

  lemma InvAt(w: World, task: Task)
    requires Inv(w)
    ensures TaskOk(w, task)
  {
  }

  /** All a completed continuation has done. */
  lemma CompletedIs(c: Continuation, succeeded: bool, ready: seq<Task>)
    requires ContinuationOk(c, succeeded) && c.completed && c.ready == ready && (c.recorded <==> succeeded)
    ensures Done(c) == [Notify(true), Advance] + Dispatches(ready)
                       + (if succeeded then [RecordFinish, Announce(true), Clear] else []) + [Complete]
  {
    assert ready[..|ready|] == ready;
    hide Dispatches, Elements, Distinct;
  }

  /** Whoever listens when a finish is told hears it, and nobody else: the run's queue is
      there or it is not. */
  lemma {:induction false} ListenersHear(w: World, actions: seq<Action>, i: nat)
    requires DropQueue !in actions
    requires |w.trace| <= i < |Run(w, actions).trace|
    ensures |w.trace| <= |Run(w, actions).trace|
    ensures var e := Run(w, actions).trace[i].1; e == Notify(true) || e == Announce(true) ==> w.queue
    ensures var e := Run(w, actions).trace[i].1; e == Notify(false) || e == Announce(false) ==> !w.queue
    decreases |actions|
  {
    if actions != [] {
      var v := Step(w, actions[0]);
      StepListens(w, actions[0]);
      hide Step;
      TraceGrows(v, actions[1..]);
      if i >= |v.trace| {
        ListenersHear(v, actions[1..], i);
      } else {
        assert Run(v, actions[1..]).trace[i] == v.trace[i];
      }
    }
  }

  lemma StepListens(w: World, a: Action)
    requires !a.DropQueue?
    ensures var v := Step(w, a);
            && v.queue == w.queue && |w.trace| <= |v.trace| <= |w.trace| + 1 && v.trace[..|w.trace|] == w.trace
            && (|v.trace| > |w.trace| ==>
                  var e := v.trace[|w.trace|].1;
                  && (e.Notify? || e.Announce? ==> e.delivered == w.queue))
  {
    hide NextReady, Mark, Elements, MayRelease;
  }

  lemma StepGrows(w: World, a: Action)
    ensures |w.trace| <= |Step(w, a).trace| && Step(w, a).trace[..|w.trace|] == w.trace
  {
    hide Next, Mark, Elements, MayRelease;
  }

  lemma {:induction false} TraceGrows(w: World, actions: seq<Action>)
    ensures |w.trace| <= |Run(w, actions).trace| && Run(w, actions).trace[..|w.trace|] == w.trace
    decreases |actions|
  {
    if actions != [] {
      StepGrows(w, actions[0]);
      hide Step;
      TraceGrows(Step(w, actions[0]), actions[1..]);
      var v := Step(w, actions[0]);
      assert Run(w, actions).trace[..|w.trace|] == Run(w, actions).trace[..|v.trace|][..|w.trace|];
    }
  }

  lemma OpenCanFinish(w: World, a: Task)
    requires Inv(w) && w.succeeded && a in Open(w)
    ensures Promises(w, a)
  {
    assert TaskOk(w, a);
  }

  /** One call, and nothing of the workflow becomes ready. */
  function Call(task: Task, n: nat): seq<Action> {
    seq(n, _ => Progress(task, []))
  }

  lemma CallIsARun(w: World, task: Task)
    requires Inv(w) && task in w.conts && !w.blocked
    ensures var n := Left(w.conts[task], w.succeeded, []);
            n >= 0 &&
            var v := Run(w, Call(task, n));
            && Inv(v) && Apart(w, v, task) && v.conts[task].completed
  {
    assert MayRelease(w, []);
    hide MayRelease;
    CallCompletes(w, task, []);
    StepsAreARun(w, task, [], Left(w.conts[task], w.succeeded, []));
    hide Inv, Left, Run, Steps, Mine;
  }

  /** Two calls, each from start to end. */
  function TwoCalls(u: World, a: Task, b: Task): seq<Action>
    requires a in u.conts && b in u.conts
    requires Left(u.conts[a], u.succeeded, []) >= 0 && Left(u.conts[b], u.succeeded, []) >= 0
  {
    Call(a, Left(u.conts[a], u.succeeded, [])) + Call(b, Left(u.conts[b], u.succeeded, []))
  }

  lemma ClearsOkIs(w: World)
    requires ClearsOk(w)
    ensures Clears(w.trace) == |ClearedBy(w)|
  {
  }

  lemma BothFinish(u: World, a: Task, b: Task)
    requires Inv(u) && ClearsOk(u) && u.succeeded && !u.blocked && a in Open(u) && b in Open(u) && a != b
    ensures Left(u.conts[a], u.succeeded, []) >= 0 && Left(u.conts[b], u.succeeded, []) >= 0
    ensures Clears(Run(u, TwoCalls(u, a, b)).trace) >= 2
  {
    OpenCanFinish(u, a);
    OpenCanFinish(u, b);
    CallIsARun(u, a);
    var first := Call(a, Left(u.conts[a], u.succeeded, []));
    var v := Run(u, first);
    assert v.conts[b] == u.conts[b];
    CallIsARun(v, b);
    var second := Call(b, Left(u.conts[b], u.succeeded, []));
    var x := Run(v, second);
    hide Inv, Left, Run, Call, ClearsOk;
    RunConcat(u, first, second);
    PromiseKept(u, first + second, a);
    PromiseKept(u, first + second, b);
    RunClears(u, first + second);
    assert {a, b} <= ClearedBy(x);
    assert Clears(x.trace) == |ClearedBy(x)| by { assert ClearsOk(x); ClearsOkIs(x); }
    SubsetSize({a, b}, ClearedBy(x));
  }

  lemma TwoOpen(w: World, a: Task, b: Task) returns (actions: seq<Action>)
    requires Inv(w) && ClearsOk(w) && w.succeeded
    requires a in Open(w) && b in Open(w) && a != b
    ensures Clears(Run(w, actions).trace) >= 2
  {
    var u := Step(w, Block(false));
    StepKeeps(w, Block(false));
    StepClears(w, Block(false));
    hide Inv, Left;
    BothFinish(u, a, b);
    var rest := TwoCalls(u, a, b);
    actions := [Block(false)] + rest;
    assert actions[1..] == rest;
  }

  const TWO_OPEN := World(map["a" := PENDING, "b" := PENDING], true, false, true, {}, [])

  /** Two finishes are accepted, the run succeeds, and each call goes through: the
      scheduler is told twice to clear the run. */
  lemma {:induction false} RunClearedTwice()
    ensures Run(START, [Accept("a"), Accept("b"), Succeed]) == TWO_OPEN
    ensures Clears(Run(TWO_OPEN, Call("a", 6) + Call("b", 6)).trace) >= 2
  {
    var actions := [Accept("a"), Accept("b"), Succeed];
    var one := Step(START, Accept("a"));
    var two := Step(one, Accept("b"));
    assert actions[1..] == [Accept("b"), Succeed] && actions[1..][1..] == [Succeed] && [Succeed][1..] == [];
    assert Run(START, actions) == Run(one, [Accept("b"), Succeed]);
    assert Run(one, [Accept("b"), Succeed]) == Run(two, [Succeed]);
    assert Run(two, [Succeed]) == Step(two, Succeed) == TWO_OPEN;
    hide Run;
    RunKeeps(START, actions);
    assert ClearsOk(TWO_OPEN);
    hide Inv;
    BothFinish(TWO_OPEN, "a", "b");
  }

  lemma {:induction false} SubsetSize(a: set<Task>, b: set<Task>)
    requires a <= b
    ensures |a| <= |b|
  {
    if a != {} {
      var x :| x in a;
      SubsetSize(a - {x}, b - {x});
    }
  }

  /** The scheduler is told to clear a run at most once, whatever follows its success,
      exactly when at most one continuation was still open when it succeeded. */
  lemma ClearedOnceIff(before: seq<Action>)
    requires !Run(START, before).succeeded
    ensures var w := Step(Run(START, before), Succeed);
            (forall after: seq<Action> :: Clears(Run(w, after).trace) <= 1) <==> |Open(w)| <= 1
  {
    var u := Run(START, before);
    var w := Step(u, Succeed);
    RunKeeps(START, before);
    StepKeeps(u, Succeed);
    assert ClearedBy(START) == {};
    RunClears(START, before);
    StepClears(u, Succeed);
    assert ClearedBy(w) == {} by {
      forall t <- w.conts ensures !w.conts[t].cleared { assert TaskOk(u, t); }
    }
    if |Open(w)| <= 1 {
      forall after: seq<Action> ensures Clears(Run(w, after).trace) <= 1 {
        RunAfterSuccess(w, after, Open(w));
        RunClears(w, after);
        SubsetSize(ClearedBy(Run(w, after)), Open(w));
      }
    } else {
      var a :| a in Open(w);
      assert Open(w) != {a};
      var b :| b in Open(w) && b != a;
      var after := TwoOpen(w, a, b);
      assert Clears(Run(w, after).trace) >= 2;
    }
  }

  // ----- the call -----------------------------------------------------------

  lemma SuccessNext(c: Continuation, queue: bool)
    requires c.notified && c.advanced && !c.completed && NextReady(c.ready, c.dispatched).None?
    ensures Next(c, true, queue) == Some(if !c.recorded then RecordFinish else if !c.announced then Announce(queue)
                                         else if !c.cleared then Clear else Complete)
  {
    hide NextReady;
  }

  class StaticRunFinisher {
    var finishContinuations: map<Task, Continuation>
    var succeeded: bool
    var requiresCleanup: bool
    var hasQueue: bool
    ghost var released: set<Task>
    ghost var trace: seq<(Task, Effect)>

    ghost function State(): World
      reads this
    {
      World(finishContinuations, succeeded, requiresCleanup, hasQueue, released, trace)
    }

    /** Where `n` steps of a call from `w` lead. */
    ghost predicate At(w: World, task: Task, ready: seq<Task>, n: nat)
      reads this
    {
      State() == Steps(w, task, ready, n)
    }

    /** One effect and its flag; what is persisted after it may fail, but the flag stays. */
    method Perform(task: Task, e: Effect, ready: seq<Task>)
      requires task in finishContinuations && !requiresCleanup
      requires Next(finishContinuations[task], succeeded, hasQueue) == Some(e)
      requires e.Advance? ==> MayRelease(State(), ready)
      modifies this`finishContinuations, this`released, this`trace
      ensures State() == DoProgress(old(State()), task, ready)
      ensures finishContinuations == old(finishContinuations)[task := Mark(old(finishContinuations)[task], e, ready)]
    {
      finishContinuations := finishContinuations[task := Mark(finishContinuations[task], e, ready)];
      if e.Advance? { released := released + Elements(ready); }
      trace := trace + [(task, e)];
    }

    /** The same, counted. */
    method PerformOne(task: Task, e: Effect, ready: seq<Task>, left: nat, ghost s0: World, ghost budget: nat)
      returns (rest: nat)
      requires task in finishContinuations && !requiresCleanup
      requires Next(finishContinuations[task], succeeded, hasQueue) == Some(e)
      requires e.Advance? ==> MayRelease(State(), ready)
      requires 0 < left <= budget && At(s0, task, ready, budget - left)
      modifies this`finishContinuations, this`released, this`trace
      ensures rest == left - 1 && At(s0, task, ready, budget - rest)
      ensures task in finishContinuations && finishContinuations[task] == Mark(old(finishContinuations)[task], e, ready)
    {
      hide State, Steps, DoProgress, Next, MayRelease, Mark;
      Perform(task, e, ready);
      rest := left - 1;
      StepsNext(s0, task, ready, budget - rest);
    }

    /** The part of the call before the dispatch loop. */
    method NotifyAndAdvance(task: Task, ready: seq<Task>, budget: nat) returns (left: nat)
      requires task in finishContinuations && !requiresCleanup && !finishContinuations[task].completed
      requires MayRelease(State(), ready)
      modifies this`finishContinuations, this`released, this`trace
      ensures left <= budget && At(old(State()), task, ready, budget - left)
      ensures task in finishContinuations && !finishContinuations[task].completed
      ensures left > 0 ==> finishContinuations[task].notified && finishContinuations[task].advanced
    {
      left := budget;
      ghost var s0 := State();
      assert At(s0, task, ready, 0);
      hide At, State, Steps, DoProgress, NextReady, MayRelease;
      if left > 0 && !finishContinuations[task].notified {
        left := PerformOne(task, Notify(hasQueue), ready, left, s0, budget);
      }
      if left > 0 && !finishContinuations[task].advanced {
        left := PerformOne(task, Advance, ready, left, s0, budget);
      }
    }

    predicate Dispatching(task: Task)
      reads this
    {
      && task in finishContinuations && !requiresCleanup && !finishContinuations[task].completed
      && finishContinuations[task].notified && finishContinuations[task].advanced
    }

    /** A turn of the loop: a task whose dispatch is marked sent is passed over. */
    method DispatchIfPending(task: Task, ready: seq<Task>, i: nat) returns (sent: bool)
      requires Dispatching(task) && i < |finishContinuations[task].ready|
      requires forall j :: 0 <= j < i ==> finishContinuations[task].ready[j] in finishContinuations[task].dispatched
      modifies this`finishContinuations, this`released, this`trace
      ensures State() == if sent then DoProgress(old(State()), task, ready) else old(State())
      ensures Dispatching(task) && finishContinuations[task].ready == old(finishContinuations)[task].ready
      ensures finishContinuations[task].dispatched
              == old(finishContinuations)[task].dispatched + {finishContinuations[task].ready[i]}
    {
      var c := finishContinuations[task];
      sent := c.ready[i] !in c.dispatched;
      if sent {
        NextReadySkips(c.ready, c.dispatched, i);
        hide DoProgress;
        Perform(task, Dispatch(c.ready[i]), ready);
      }
    }

    /** The turn, counted. */
    method TakeTurn(task: Task, ready: seq<Task>, i: nat, left: nat, ghost s0: World, ghost budget: nat)
      returns (rest: nat)
      requires Dispatching(task) && i < |finishContinuations[task].ready| && 0 < left <= budget
      requires forall j :: 0 <= j < i ==> finishContinuations[task].ready[j] in finishContinuations[task].dispatched
      requires At(s0, task, ready, budget - left)
      modifies this`finishContinuations, this`released, this`trace
      ensures rest <= left && At(s0, task, ready, budget - rest)
      ensures Dispatching(task) && finishContinuations[task].ready == old(finishContinuations)[task].ready
      ensures finishContinuations[task].dispatched
              == old(finishContinuations)[task].dispatched + {finishContinuations[task].ready[i]}
    {
      hide State, Steps, DoProgress, NextReady;
      rest := left;
      var sent := DispatchIfPending(task, ready, i);
      if sent {
        rest := left - 1;
        StepsNext(s0, task, ready, budget - rest);
      }
    }

    method DispatchReady(task: Task, ready: seq<Task>, budget: nat) returns (left: nat)
      requires Dispatching(task)
      modifies this`finishContinuations, this`released, this`trace
      ensures left <= budget && At(old(State()), task, ready, budget - left)
      ensures Dispatching(task)
      ensures left > 0 ==>
                NextReady(finishContinuations[task].ready, finishContinuations[task].dispatched).None?
    {
      left := budget;
      ghost var s0 := State();
      assert At(s0, task, ready, 0);
      hide At, State, Steps, DoProgress, NextReady;
      var ids := finishContinuations[task].ready;
      var i := 0;
      while i < |ids| && left > 0
        invariant 0 <= i <= |ids| && left <= budget
        invariant Dispatching(task) && finishContinuations[task].ready == ids
        invariant forall j :: 0 <= j < i ==> ids[j] in finishContinuations[task].dispatched
        invariant At(s0, task, ready, budget - left)
        decreases |ids| - i
      {
        left := TakeTurn(task, ready, i, left, s0, budget);
        i := i + 1;
      }
      if i == |ids| { NextReadySkips(ids, finishContinuations[task].dispatched, i); }
    }

    /** A run that has succeeded, with every ready task dispatched. */
    predicate Announcing(task: Task)
      reads this
    {
      && Dispatching(task) && succeeded
      && NextReady(finishContinuations[task].ready, finishContinuations[task].dispatched).None?
    }

    predicate Recorded(task: Task)
      reads this
    {
      Announcing(task) && finishContinuations[task].recorded
    }

    /** The finish_workflow event, once. */
    method RecordIfNew(task: Task, ready: seq<Task>, left: nat, ghost s0: World, ghost budget: nat)
      returns (rest: nat)
      requires Announcing(task) && 0 < left <= budget && At(s0, task, ready, budget - left)
      modifies this`finishContinuations, this`released, this`trace
      ensures rest <= left && At(s0, task, ready, budget - rest) && Recorded(task) && task in finishContinuations
    {
      hide At, State, Steps, DoProgress, NextReady, MayRelease, Next;
      rest := left;
      if !finishContinuations[task].recorded {
        SuccessNext(finishContinuations[task], hasQueue);
        rest := PerformOne(task, RecordFinish, ready, left, s0, budget);
      }
    }

    predicate Announced(task: Task)
      reads this
    {
      Recorded(task) && finishContinuations[task].announced
    }

    /** To whoever listens, once. */
    method AnnounceIfNew(task: Task, ready: seq<Task>, left: nat, ghost s0: World, ghost budget: nat)
      returns (rest: nat)
      requires Recorded(task) && 0 < left <= budget && At(s0, task, ready, budget - left)
      modifies this`finishContinuations, this`released, this`trace
      ensures rest <= left && At(s0, task, ready, budget - rest) && Announced(task) && task in finishContinuations
    {
      hide At, State, Steps, DoProgress, NextReady, MayRelease, Next;
      rest := left;
      if !finishContinuations[task].announced {
        SuccessNext(finishContinuations[task], hasQueue);
        rest := PerformOne(task, Announce(hasQueue), ready, left, s0, budget);
      }
    }

    predicate Cleared(task: Task)
      reads this
    {
      Announced(task) && finishContinuations[task].cleared
    }

    /** To the scheduler, once. */
    method ClearIfNew(task: Task, ready: seq<Task>, left: nat, ghost s0: World, ghost budget: nat)
      returns (rest: nat)
      requires Announced(task) && 0 < left <= budget && At(s0, task, ready, budget - left)
      modifies this`finishContinuations, this`released, this`trace
      ensures rest <= left && At(s0, task, ready, budget - rest) && Cleared(task) && task in finishContinuations
    {
      hide At, State, Steps, DoProgress, NextReady, MayRelease, Next;
      rest := left;
      if !finishContinuations[task].cleared {
        SuccessNext(finishContinuations[task], hasQueue);
        rest := PerformOne(task, Clear, ready, left, s0, budget);
      }
    }

    /** The branch for a run that has succeeded. */
    method AnnounceSuccess(task: Task, ready: seq<Task>, budget: nat) returns (left: nat)
      requires Announcing(task)
      modifies this`finishContinuations, this`released, this`trace
      ensures left <= budget && At(old(State()), task, ready, budget - left)
      ensures task in finishContinuations && (left > 0 ==> Cleared(task))
    {
      left := budget;
      ghost var s0 := State();
      assert At(s0, task, ready, 0);
      hide At, State, Steps, DoProgress, Announcing, Recorded, Announced, Cleared;
      if left == 0 { return; }
      left := RecordIfNew(task, ready, left, s0, budget);
      if left == 0 { return; }
      left := AnnounceIfNew(task, ready, left, s0, budget);
      if left == 0 { return; }
      left := ClearIfNew(task, ready, left, s0, budget);
    }

    /** What is left when every ready task was dispatched. */
    method Conclude(task: Task, ready: seq<Task>, budget: nat) returns (left: nat)
      requires Dispatching(task) && 0 < budget
      requires NextReady(finishContinuations[task].ready, finishContinuations[task].dispatched).None?
      modifies this`finishContinuations, this`released, this`trace
      ensures left <= budget && At(old(State()), task, ready, budget - left)
      ensures task in finishContinuations && (left > 0 ==> finishContinuations[task].completed)
    {
      left := budget;
      ghost var s0 := State();
      assert At(s0, task, ready, 0);
      hide At, State, Steps, DoProgress, NextReady, MayRelease;
      if succeeded {
        left := AnnounceSuccess(task, ready, budget);
        if left == 0 { return; }
      }
      left := PerformOne(task, Complete, ready, left, s0, budget);
    }

    /** The loop and what follows it. */
    method DispatchAndConclude(task: Task, ready: seq<Task>, budget: nat) returns (left: nat)
      requires task in finishContinuations && !requiresCleanup && !finishContinuations[task].completed
      requires finishContinuations[task].notified && finishContinuations[task].advanced
      modifies this`finishContinuations, this`released, this`trace
      ensures left <= budget && At(old(State()), task, ready, budget - left)
      ensures task in finishContinuations && (left > 0 ==> finishContinuations[task].completed)
    {
      ghost var s0 := State();
      hide NextReady, State, Steps, DoProgress;
      left := DispatchReady(task, ready, budget);
      if left == 0 { return; }
      ghost var n := budget - left;
      var rest := Conclude(task, ready, left);
      StepsAdd(s0, task, ready, n, left - rest);
      left := rest;
    }

    /** The call on a continuation that is not completed. */
    method ContinueOpen(task: Task, ready: seq<Task>, budget: nat) returns (left: nat)
      requires task in finishContinuations && !requiresCleanup && !finishContinuations[task].completed
      requires MayRelease(State(), ready)
      modifies this`finishContinuations, this`released, this`trace
      ensures left <= budget && At(old(State()), task, ready, budget - left)
      ensures task in finishContinuations && (left > 0 ==> finishContinuations[task].completed)
    {
      ghost var s0 := State();
      hide MayRelease, State, Steps, DoProgress;
      left := NotifyAndAdvance(task, ready, budget);
      if left == 0 { return; }
      ghost var n := budget - left;
      var rest := DispatchAndConclude(task, ready, left);
      StepsAdd(s0, task, ready, n, left - rest);
      left := rest;
    }

    /** `_continue_static_finish`; `budget` is how much it does before something raises. */
    method ContinueStaticFinish(task: Task, ready: seq<Task>, budget: nat)
      returns (completed: bool, ghost steps: nat)
      requires task in finishContinuations && MayRelease(State(), ready)
      modifies this`finishContinuations, this`released, this`trace
      ensures steps <= budget && At(old(State()), task, ready, steps)
      ensures task in finishContinuations && (completed <==> finishContinuations[task].completed)
      ensures (Undisturbed(old(State()), task, ready)
               && budget >= Left(old(finishContinuations)[task], old(succeeded), ready)) ==> completed
      ensures !completed && !requiresCleanup ==> steps == budget
    {
      assert At(State(), task, ready, 0);
      ghost var s0 := State();
      if Undisturbed(s0, task, ready) && budget >= Left(finishContinuations[task], succeeded, ready) {
        CallIsEnough(s0, task, ready, budget);
      }
      hide At, MayRelease, Steps, DoProgress, Undisturbed, Left;
      steps := 0;
      if !requiresCleanup && !finishContinuations[task].completed {
        hide State;
        var left := ContinueOpen(task, ready, budget);
        steps := budget - left;
      }
      completed := finishContinuations[task].completed;
    }
  }
}
