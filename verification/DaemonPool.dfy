/** The daemon worker pool for calls that may never return
    (maze/core/scheduler/llm_instance.py: `_BoundedDaemonExecutor`).

    Workers, the reaper thread and the callers of `submit`, `abandon` and
    `future.cancel` interleave; each queue operation, future transition and locked
    region is one step.  A call that never returns is a worker that never takes its
    next turn. */
module DaemonPool {
  import opened Counting
  import opened Options

  type WorkerId = nat   // place in the order of thread creation
  type FutureId = nat   // place in the order of submission

  datatype Phase = Pending | Running | Cancelled | Finished

  /** `holder` is the worker that dequeued it.  `everAbandoned` and `retirements` are
      history. */
  datatype Future = Future(phase: Phase, holder: Option<WorkerId>, everAbandoned: bool, retirements: nat)

  /** `doomed` is history: the call was abandoned while it ran. */
  datatype Worker =
    | Idle
    | Took(call: FutureId)
    | Executing(call: FutureId, doomed: bool)
    | Reported(call: FutureId, doomed: bool)   // result set, membership not yet checked
    | Exiting(call: FutureId)                  // found abandoned, not yet in the retired queue
    | Parked(call: FutureId)                   // in the retired queue, thread not yet over
    | Gone(call: FutureId)                     // thread over, not yet joined
    | Reaped

  datatype Limits = Limits(maxWorkers: nat, maxPending: nat, maxAbandoned: nat)

  datatype Pool = Pool(
    tasks: seq<FutureId>,
    futures: seq<Future>,
    workers: seq<Worker>,
    abandoned: set<FutureId>,
    retired: seq<WorkerId>,
    reaping: Option<WorkerId>)

  datatype Action =
    | Submit
    | Cancel(f: FutureId)
    | Abandon(f: FutureId, threadStarts: bool)
    | WorkerTurn(w: WorkerId)
    | ReaperTake
    | ReaperJoined

  function Start(limits: Limits): Pool {
    Pool([], [], seq(limits.maxWorkers, _ => Idle), {}, [], None)
  }

  predicate QueueFull(limits: Limits, p: Pool) {
    limits.maxPending > 0 && |p.tasks| >= limits.maxPending
  }

  function DoSubmit(limits: Limits, p: Pool): Pool {
    if QueueFull(limits, p) then p
    else p.(tasks := p.tasks + [|p.futures|],
            futures := p.futures + [Future(Pending, None, false, 0)])
  }

  function DoCancel(p: Pool, f: FutureId): Pool {
    if f < |p.futures| && p.futures[f].phase.Pending?
    then p.(futures := p.futures[f := p.futures[f].(phase := Cancelled)])
    else p
  }

  /** `abandon` succeeds in replacing the worker of a running call. */
  predicate Replaces(limits: Limits, p: Pool, f: FutureId) {
    f < |p.futures| && p.futures[f].phase.Running? && f !in p.abandoned
    && |p.abandoned| < limits.maxAbandoned
  }

  function DoAbandon(limits: Limits, p: Pool, f: FutureId, threadStarts: bool): Pool {
    if Replaces(limits, p, f) && threadStarts
       && p.futures[f].holder.Some? && p.futures[f].holder.value < |p.workers|
    then
      var w := p.futures[f].holder.value;
      p.(abandoned := p.abandoned + {f},
         futures := p.futures[f := p.futures[f].(everAbandoned := true)],
         workers := p.workers[w := Executing(f, true)] + [Idle])
    else p
  }

  function SetPhase(p: Pool, f: FutureId, phase: Phase): Pool
    requires f < |p.futures|
  {
    p.(futures := p.futures[f := p.futures[f].(phase := phase)])
  }

  function SetWorker(p: Pool, w: WorkerId, to: Worker): Pool
    requires w < |p.workers|
  {
    p.(workers := p.workers[w := to])
  }

  /** The worker's call; a reaped worker has none. */
  function Call(w: Worker): Option<FutureId> {
    match w
    case Idle => None
    case Reaped => None
    case _ => Some(w.call)
  }

  /** One turn of `_run`. */
  function DoWorkerTurn(p: Pool, w: WorkerId): Pool
    requires w < |p.workers|
  {
    match p.workers[w]
    case Idle =>
      if p.tasks == [] || p.tasks[0] >= |p.futures| then p
      else
        var f := p.tasks[0];
        SetWorker(p, w, Took(f))
          .(tasks := p.tasks[1..], futures := p.futures[f := p.futures[f].(holder := Some(w))])
    case Took(f) =>
      if f >= |p.futures| then p
      else if p.futures[f].phase.Cancelled? then SetWorker(p, w, Reported(f, false))
      else SetWorker(SetPhase(p, f, Running), w, Executing(f, false))
    case Executing(f, doomed) =>
      if f >= |p.futures| then p
      else SetWorker(SetPhase(p, f, Finished), w, Reported(f, doomed))
    case Reported(f, _) => SetWorker(p, w, if f in p.abandoned then Exiting(f) else Idle)
    case Exiting(f) =>
      if f >= |p.futures| then p
      else SetWorker(p, w, Parked(f))
             .(retired := p.retired + [w],
               futures := p.futures[f := p.futures[f].(retirements := p.futures[f].retirements + 1)])
    case Parked(f) => SetWorker(p, w, Gone(f))
    case _ => p
  }

  function DoReaperTake(p: Pool): Pool {
    if p.retired != [] && p.reaping.None?
    then p.(retired := p.retired[1..], reaping := Some(p.retired[0])) else p
  }

  /** `worker.join()` has returned: the worker's thread is over. */
  function DoReaperJoined(p: Pool): Pool {
    if p.reaping.Some? && p.reaping.value < |p.workers| && p.workers[p.reaping.value].Gone? then
      var w := p.reaping.value;
      SetWorker(p, w, Reaped).(reaping := None, abandoned := p.abandoned - {p.workers[w].call})
    else p
  }

  function Step(limits: Limits, p: Pool, a: Action): Pool {
    match a
    case Submit => DoSubmit(limits, p)
    case Cancel(f) => DoCancel(p, f)
    case Abandon(f, threadStarts) => DoAbandon(limits, p, f, threadStarts)
    case WorkerTurn(w) => if w < |p.workers| then DoWorkerTurn(p, w) else p
    case ReaperTake => DoReaperTake(p)
    case ReaperJoined => DoReaperJoined(p)
  }

  function Run(limits: Limits, p: Pool, actions: seq<Action>): Pool
    decreases |actions|
  {
    if actions == [] then p else Run(limits, Step(limits, p, actions[0]), actions[1..])
  }

  // ----- the invariant ------------------------------------------------------

  /** Workers that will come back for another task. */
  predicate Staying(w: Worker) {
    w.Idle? || w.Took? || (w.Executing? && !w.doomed) || (w.Reported? && !w.doomed)
  }

  /** Workers whose call is in the abandoned set. */
  predicate Retiring(w: Worker) {
    (w.Executing? && w.doomed) || (w.Reported? && w.doomed) || w.Exiting? || w.Parked? || w.Gone?
  }

  /** Workers in the retired queue or in the reaper's hands. */
  predicate Handed(w: Worker) { w.Parked? || w.Gone? }

  /** Threads that exist. */
  predicate Alive(w: Worker) { !w.Gone? && !w.Reaped? }

  predicate WorkerOk(p: Pool, w: WorkerId, worker: Worker) {
    match worker
    case Idle => true
    case Reaped => true
    case _ =>
      var f := worker.call;
      && f < |p.futures| && p.futures[f].holder == Some(w)
      && (f in p.abandoned <==> Retiring(worker))
      && p.futures[f].retirements == (if Handed(worker) then 1 else 0)
      && (match p.futures[f].phase
          case Pending => worker.Took?
          case Running => worker.Executing?
          case Cancelled => worker.Took? || worker == Reported(f, false)
          case Finished => !worker.Took? && !worker.Executing?)
  }

  /** Who holds a future, and what became of an abandoned one. */
  predicate FutureOk(p: Pool, f: FutureId, future: Future) {
    && (future.holder.Some? ==> future.holder.value < |p.workers|)
    && (future.phase.Running? ==> future.holder.Some? && Call(p.workers[future.holder.value]) == Some(f))
    && (f in p.abandoned ==> future.everAbandoned && future.holder.Some?
                             && Call(p.workers[future.holder.value]) == Some(f))
    && (future.everAbandoned && f !in p.abandoned ==> future.retirements == 1)
    && (future.holder.None? ==> future.retirements == 0 && (future.phase.Pending? || future.phase.Cancelled?))
    && future.retirements <= 1 && (future.retirements == 1 ==> future.everAbandoned)
  }

  ghost predicate AllWorkers(p: Pool) {
    forall w: WorkerId :: w < |p.workers| ==> WorkerOk(p, w, p.workers[w])
  }

  ghost predicate AllFutures(p: Pool) {
    && (forall f: FutureId :: f < |p.futures| ==> FutureOk(p, f, p.futures[f]))
    && (forall f <- p.abandoned :: f < |p.futures|)
  }

  ghost predicate Queued(p: Pool) {
    && (forall i :: 0 <= i < |p.tasks| ==>
          p.tasks[i] < |p.futures| && p.futures[p.tasks[i]].holder.None?)
    && (forall i, j :: 0 <= i < j < |p.tasks| ==> p.tasks[i] != p.tasks[j])
  }

  ghost predicate Inv(limits: Limits, p: Pool) {
    AllWorkers(p) && AllFutures(p) && Queued(p) && Bounds(limits, p)
  }

  ghost predicate Bounds(limits: Limits, p: Pool) {
    && Count(Staying, p.workers) == limits.maxWorkers
    && Count(Retiring, p.workers) == |p.abandoned| <= limits.maxAbandoned
    && Count(Handed, p.workers) == |p.retired| + (if p.reaping.Some? then 1 else 0)
    && (forall i :: 0 <= i < |p.retired| ==>
          p.retired[i] < |p.workers| && Handed(p.workers[p.retired[i]]))
    && (forall i, j :: 0 <= i < j < |p.retired| ==> p.retired[i] != p.retired[j])
    && (p.reaping.Some? ==> p.reaping.value < |p.workers| && Handed(p.workers[p.reaping.value])
                            && p.reaping.value !in p.retired)
  }

  lemma StartInv(limits: Limits)
    ensures Inv(limits, Start(limits))
  {
    var p := Start(limits);
    AllStay(p.workers);
    CountNone(Retiring, p.workers);
    CountNone(Handed, p.workers);
  }

  lemma {:induction false} AllStay(ws: seq<Worker>)
    requires forall i :: 0 <= i < |ws| ==> ws[i].Idle?
    ensures Count(Staying, ws) == |ws|
  {
    if ws != [] { AllStay(ws[1..]); }
  }

  /** How replacing one worker moves the three counts. */
  lemma SetCounts(ws: seq<Worker>, w: WorkerId, to: Worker)
    requires w < |ws|
    ensures Count(Staying, ws[w := to])
            == Count(Staying, ws) - (if Staying(ws[w]) then 1 else 0) + (if Staying(to) then 1 else 0)
    ensures Count(Retiring, ws[w := to])
            == Count(Retiring, ws) - (if Retiring(ws[w]) then 1 else 0) + (if Retiring(to) then 1 else 0)
    ensures Count(Handed, ws[w := to])
            == Count(Handed, ws) - (if Handed(ws[w]) then 1 else 0) + (if Handed(to) then 1 else 0)
  {
    CountUpdate(Staying, ws, w, to);
    CountUpdate(Retiring, ws, w, to);
    CountUpdate(Handed, ws, w, to);
  }

  lemma SubmitKeeps(limits: Limits, p: Pool)
    requires Inv(limits, p)
    ensures Inv(limits, DoSubmit(limits, p))
  {
  }

  lemma CancelKeeps(limits: Limits, p: Pool, f: FutureId)
    requires Inv(limits, p)
    ensures Inv(limits, DoCancel(p, f))
  {
  }

  lemma AbandonKeepsCounts(limits: Limits, p: Pool, f: FutureId)
    requires Inv(limits, p) && Replaces(limits, p, f)
    ensures Bounds(limits, DoAbandon(limits, p, f, true))
  {
    var w := p.futures[f].holder.value;
    assert FutureOk(p, f, p.futures[f]) && WorkerOk(p, w, p.workers[w]);
    hide AllWorkers, AllFutures, Queued, WorkerOk, FutureOk;
    SetCounts(p.workers, w, Executing(f, true));
    var ws := p.workers[w := Executing(f, true)];
    CountAppend(Staying, ws, Idle);
    CountAppend(Retiring, ws, Idle);
    CountAppend(Handed, ws, Idle);
  }

  lemma AbandonKeeps(limits: Limits, p: Pool, f: FutureId, threadStarts: bool)
    requires Inv(limits, p)
    ensures Inv(limits, DoAbandon(limits, p, f, threadStarts))
  {
    var q := DoAbandon(limits, p, f, threadStarts);
    if q != p {
      AbandonKeepsCounts(limits, p, f);
      hide Bounds;
      var w := p.futures[f].holder.value;
      assert FutureOk(p, f, p.futures[f]) && WorkerOk(p, w, p.workers[w]);
      forall v: WorkerId | v < |q.workers| ensures WorkerOk(q, v, q.workers[v]) {
        if v < |p.workers| { assert WorkerOk(p, v, p.workers[v]); }
      }
      forall g: FutureId | g < |q.futures| ensures FutureOk(q, g, q.futures[g]) {
        assert FutureOk(p, g, p.futures[g]);
      }
    }
  }

  /** A worker change that none of the three counts sees. */
  lemma QuietTurnKeepsBounds(limits: Limits, p: Pool, q: Pool, w: WorkerId)
    requires Bounds(limits, p) && w < |p.workers| && |p.workers| == |q.workers|
    requires q.workers == p.workers[w := q.workers[w]]
    requires q.abandoned == p.abandoned && q.retired == p.retired && q.reaping == p.reaping
    requires Staying(q.workers[w]) == Staying(p.workers[w])
    requires Retiring(q.workers[w]) == Retiring(p.workers[w])
    requires Handed(q.workers[w]) == Handed(p.workers[w])
    ensures Bounds(limits, q)
  {
    SetCounts(p.workers, w, q.workers[w]);
    hide Staying, Retiring, Handed;
  }

  lemma TakeKeeps(limits: Limits, p: Pool, w: WorkerId)
    requires Inv(limits, p) && w < |p.workers| && p.workers[w].Idle?
    ensures Inv(limits, DoWorkerTurn(p, w))
  {
    var q := DoWorkerTurn(p, w);
    if q != p {
      QuietTurnKeepsBounds(limits, p, q, w);
      hide Bounds;
      forall v: WorkerId | v < |q.workers| ensures WorkerOk(q, v, q.workers[v]) {
        assert WorkerOk(p, v, p.workers[v]);
        assert FutureOk(p, p.tasks[0], p.futures[p.tasks[0]]);
      }
      forall g: FutureId | g < |q.futures| ensures FutureOk(q, g, q.futures[g]) {
        assert FutureOk(p, g, p.futures[g]);
      }
    }
  }

  /** A turn that touches one worker and the future it holds. */
  ghost predicate OwnTurn(p: Pool, q: Pool, w: WorkerId, f: FutureId) {
    && w < |p.workers| == |q.workers| && f < |p.futures| == |q.futures|
    && Call(p.workers[w]) == Some(f)
    && (Call(q.workers[w]) == Some(f) || q.workers[w].Idle?)
    && q.workers == p.workers[w := q.workers[w]] && q.futures == p.futures[f := q.futures[f]]
    && q.futures[f].holder == p.futures[f].holder
    && q.abandoned == p.abandoned && q.tasks == p.tasks
    && WorkerOk(q, w, q.workers[w]) && FutureOk(q, f, q.futures[f])
  }

  lemma OwnTurnKeeps(p: Pool, q: Pool, w: WorkerId, f: FutureId)
    requires AllWorkers(p) && AllFutures(p) && Queued(p) && OwnTurn(p, q, w, f)
    ensures AllWorkers(q) && AllFutures(q) && Queued(q)
  {
    assert WorkerOk(p, w, p.workers[w]);
    forall v: WorkerId | v < |q.workers| ensures WorkerOk(q, v, q.workers[v]) {
      if v != w { assert WorkerOk(p, v, p.workers[v]); }
    }
    forall g: FutureId | g < |q.futures| ensures FutureOk(q, g, q.futures[g]) {
      if g != f { assert FutureOk(p, g, p.futures[g]); }
    }
  }

  /** The turns between taking a task and retiring. */
  lemma WorkKeeps(limits: Limits, p: Pool, w: WorkerId)
    requires Inv(limits, p) && w < |p.workers|
    requires p.workers[w].Took? || p.workers[w].Executing? || p.workers[w].Reported?
    ensures Inv(limits, DoWorkerTurn(p, w))
  {
    var q := DoWorkerTurn(p, w);
    var f := p.workers[w].call;
    assert WorkerOk(p, w, p.workers[w]) && FutureOk(p, f, p.futures[f]);
    hide AllWorkers, AllFutures, Queued, Bounds;
    OwnTurnKeeps(p, q, w, f);
    QuietTurnKeepsBounds(limits, p, q, w);
  }

  lemma RetireKeeps(limits: Limits, p: Pool, w: WorkerId)
    requires Inv(limits, p) && w < |p.workers|
    requires p.workers[w].Exiting? || p.workers[w].Parked?
    ensures Inv(limits, DoWorkerTurn(p, w))
  {
    var q := DoWorkerTurn(p, w);
    var f := p.workers[w].call;
    assert WorkerOk(p, w, p.workers[w]) && FutureOk(p, f, p.futures[f]);
    OwnTurnKeeps(p, q, w, f);
    hide AllWorkers, AllFutures, Queued, WorkerOk, FutureOk;
    SetCounts(p.workers, w, q.workers[w]);
  }

  lemma ReaperTakeKeeps(limits: Limits, p: Pool)
    requires Inv(limits, p)
    ensures Inv(limits, DoReaperTake(p))
  {
  }

  lemma ReaperJoinedKeeps(limits: Limits, p: Pool)
    requires Inv(limits, p)
    ensures Inv(limits, DoReaperJoined(p))
  {
    if p.reaping.Some? {
      var w := p.reaping.value;
      assert WorkerOk(p, w, p.workers[w]);
      SetCounts(p.workers, w, Reaped);
    }
  }

  lemma StepKeeps(limits: Limits, p: Pool, a: Action)
    requires Inv(limits, p)
    ensures Inv(limits, Step(limits, p, a))
  {
    hide Inv, DoSubmit, DoCancel, DoAbandon, DoReaperTake, DoReaperJoined;
    match a
    case Submit => SubmitKeeps(limits, p);
    case Cancel(f) => CancelKeeps(limits, p, f);
    case Abandon(f, threadStarts) => AbandonKeeps(limits, p, f, threadStarts);
    case WorkerTurn(w) =>
      if w < |p.workers| {
        match p.workers[w]
        case Idle => TakeKeeps(limits, p, w);
        case Took(_) => WorkKeeps(limits, p, w);
        case Executing(_, _) => WorkKeeps(limits, p, w);
        case Reported(_, _) => WorkKeeps(limits, p, w);
        case Exiting(_) => RetireKeeps(limits, p, w);
        case Parked(_) => RetireKeeps(limits, p, w);
        case _ =>
      }
    case ReaperTake => ReaperTakeKeeps(limits, p);
    case ReaperJoined => ReaperJoinedKeeps(limits, p);
  }

  lemma {:induction false} RunKeeps(limits: Limits, p: Pool, actions: seq<Action>)
    requires Inv(limits, p)
    ensures Inv(limits, Run(limits, p, actions))
    decreases |actions|
  {
    if actions != [] {
      StepKeeps(limits, p, actions[0]);
      RunKeeps(limits, Step(limits, p, actions[0]), actions[1..]);
    }
  }

  // ----- what every schedule keeps ------------------------------------------

  /** Only workers whose call is abandoned and not yet reaped exist beyond the stayers. */
  lemma {:induction false} AliveSplit(ws: seq<Worker>)
    ensures Count(Alive, ws) <= Count(Staying, ws) + Count(Retiring, ws)
  {
    if ws != [] { AliveSplit(ws[1..]); }
  }

  /** After any number of stuck calls, abandons and completions the pool has exactly
      `maxWorkers` workers that will serve again, at most `maxAbandoned` more threads,
      and one retiring worker per abandoned call. */
  lemma WorkersAreConserved(limits: Limits, actions: seq<Action>)
    ensures var p := Run(limits, Start(limits), actions);
            && Count(Staying, p.workers) == limits.maxWorkers
            && Count(Retiring, p.workers) == |p.abandoned| <= limits.maxAbandoned
            && Count(Alive, p.workers) <= limits.maxWorkers + |p.abandoned|
  {
    StartInv(limits);
    RunKeeps(limits, Start(limits), actions);
    AliveSplit(Run(limits, Start(limits), actions).workers);
  }

  /** An abandoned call retires one worker and no other call retires any: it is still
      in the abandoned set, held by a retiring worker, or its worker has retired. */
  lemma EachAbandonedCallRetiresOneWorker(limits: Limits, actions: seq<Action>, f: FutureId)
    requires f < |Run(limits, Start(limits), actions).futures|
    ensures var p := Run(limits, Start(limits), actions); var future := p.futures[f];
            && future.retirements <= 1
            && (future.retirements == 1 ==> future.everAbandoned)
            && (future.everAbandoned && f !in p.abandoned ==> future.retirements == 1)
            && (f in p.abandoned ==>
                  && future.holder.Some? && future.holder.value < |p.workers|
                  && Retiring(p.workers[future.holder.value])
                  && Call(p.workers[future.holder.value]) == Some(f))
  {
    StartInv(limits);
    RunKeeps(limits, Start(limits), actions);
    var p := Run(limits, Start(limits), actions);
    assert FutureOk(p, f, p.futures[f]);
    if f in p.abandoned {
      assert WorkerOk(p, p.futures[f].holder.value, p.workers[p.futures[f].holder.value]);
    }
  }

  /** A retiring worker never blocks on the retired queue, whose size is
      `max(1, max_abandoned)`. */
  lemma RetiringNeverBlocks(limits: Limits, actions: seq<Action>, w: WorkerId)
    requires w < |Run(limits, Start(limits), actions).workers|
    requires Run(limits, Start(limits), actions).workers[w].Exiting?
    ensures |Run(limits, Start(limits), actions).retired| < limits.maxAbandoned
  {
    StartInv(limits);
    RunKeeps(limits, Start(limits), actions);
    var p := Run(limits, Start(limits), actions);
    CountStrict(Handed, Retiring, p.workers, w);
  }

  /** No call is held by two workers, and none that is held is still queued. */
  lemma TasksAreServedOnce(limits: Limits, actions: seq<Action>, v: WorkerId, w: WorkerId)
    requires var p := Run(limits, Start(limits), actions);
             v < |p.workers| && w < |p.workers| && v != w && Call(p.workers[v]).Some?
    ensures var p := Run(limits, Start(limits), actions);
            Call(p.workers[v]) != Call(p.workers[w]) && Call(p.workers[v]).value !in p.tasks
  {
    StartInv(limits);
    RunKeeps(limits, Start(limits), actions);
    var p := Run(limits, Start(limits), actions);
    assert WorkerOk(p, v, p.workers[v]) && WorkerOk(p, w, p.workers[w]);
  }

  // ----- what a call meets --------------------------------------------------

  /** A submission is refused exactly when a bounded queue is full, and otherwise waits
      last, pending and held by nobody. */
  lemma SubmitIs(limits: Limits, p: Pool)
    ensures var q := Step(limits, p, Submit); var f := |p.futures|;
            if limits.maxPending > 0 && |p.tasks| >= limits.maxPending then q == p
            else
              && q.tasks == p.tasks + [f] && |q.futures| == f + 1 && q.futures[..f] == p.futures
              && q.futures[f].phase.Pending? && q.futures[f].holder.None? && !q.futures[f].everAbandoned
              && q.workers == p.workers && q.abandoned == p.abandoned
              && q.retired == p.retired && q.reaping == p.reaping
  {
  }

  /** A cancellation reaches a call that does not run yet, and nothing else. */
  lemma CancelIs(limits: Limits, p: Pool, f: FutureId)
    requires f < |p.futures|
    ensures var q := Step(limits, p, Cancel(f));
            && |q.futures| == |p.futures| && q.tasks == p.tasks && q.workers == p.workers
            && q.abandoned == p.abandoned && q.retired == p.retired && q.reaping == p.reaping
            && (forall g :: 0 <= g < |p.futures| && g != f ==> q.futures[g] == p.futures[g])
            && q.futures[f].holder == p.futures[f].holder
            && q.futures[f].phase == if p.futures[f].phase == Pending then Cancelled else p.futures[f].phase
  {
  }

  /** Abandoning takes the worker that executes the call out of service and starts an
      idle one, exactly for a running call not abandoned before, while the abandoned set
      has room and the thread starts. */
  lemma AbandonIs(limits: Limits, p: Pool, f: FutureId, threadStarts: bool)
    requires Inv(limits, p) && f < |p.futures|
    ensures var q := Step(limits, p, Abandon(f, threadStarts));
            if p.futures[f].phase == Running && f !in p.abandoned
               && |p.abandoned| < limits.maxAbandoned && threadStarts
            then
              && q.abandoned == p.abandoned + {f} && q.tasks == p.tasks
              && |q.workers| == |p.workers| + 1 && q.workers[|p.workers|] == Idle
              && (forall v :: 0 <= v < |p.workers| ==>
                    q.workers[v] == if p.workers[v] == Executing(f, false) then Executing(f, true)
                                    else p.workers[v])
              && Executing(f, false) in p.workers
              && (forall g :: 0 <= g < |p.futures| ==> q.futures[g].phase == p.futures[g].phase)
              && q.retired == p.retired && q.reaping == p.reaping
            else q == p
  {
    var future := p.futures[f];
    assert FutureOk(p, f, future);
    if future.phase.Running? {
      var w := future.holder.value;
      assert WorkerOk(p, w, p.workers[w]);
      forall v: WorkerId | v < |p.workers| && p.workers[v] == Executing(f, false) ensures v == w {
        assert WorkerOk(p, v, p.workers[v]);
      }
    }
  }

  /** An idle worker takes the call that waited longest. */
  lemma TakeIs(limits: Limits, p: Pool, w: WorkerId)
    requires Inv(limits, p) && w < |p.workers| && p.workers[w].Idle?
    ensures var q := Step(limits, p, WorkerTurn(w));
            if p.tasks == [] then q == p
            else
              && q.workers == p.workers[w := Took(p.tasks[0])] && q.tasks == p.tasks[1..]
              && q.abandoned == p.abandoned && |q.futures| == |p.futures|
              && (forall g :: 0 <= g < |p.futures| ==> q.futures[g].phase == p.futures[g].phase)
  {
  }

  /** A taken call runs unless it was cancelled; a running one gets its outcome, abandoned
      or not; then the worker goes idle, or retires if its call was abandoned, and in the
      end waits for the reaper. */
  lemma TurnIs(limits: Limits, p: Pool, w: WorkerId)
    requires Inv(limits, p) && w < |p.workers| && Call(p.workers[w]).Some?
    ensures var q := Step(limits, p, WorkerTurn(w)); var f := Call(p.workers[w]).value;
            && f < |p.futures| == |q.futures| && |q.workers| == |p.workers|
            && q.tasks == p.tasks && q.abandoned == p.abandoned
            && (forall v :: 0 <= v < |p.workers| && v != w ==> q.workers[v] == p.workers[v])
            && (forall g :: 0 <= g < |p.futures| && g != f ==> q.futures[g] == p.futures[g])
            && q.retired == p.retired + (if p.workers[w].Exiting? then [w] else [])
            && q.futures[f].phase == (match p.workers[w]
                                      case Took(_) => if p.futures[f].phase == Pending then Running else Cancelled
                                      case Executing(_, _) => Finished
                                      case _ => p.futures[f].phase)
            && q.workers[w] == (match p.workers[w]
                                case Took(_) => if p.futures[f].phase == Pending then Executing(f, false)
                                                else Reported(f, false)
                                case Executing(_, _) => Reported(f, f in p.abandoned)
                                case Reported(_, _) => if f in p.abandoned then Exiting(f) else Idle
                                case Exiting(_) => Parked(f)
                                case _ => Gone(f))
  {
    assert WorkerOk(p, w, p.workers[w]);
  }

  function Turns(w: WorkerId, n: nat): seq<Action> {
    seq(n, _ => WorkerTurn(w))
  }

  lemma {:induction false} RunMore(limits: Limits, p: Pool, first: seq<Action>, second: seq<Action>)
    ensures Run(limits, p, first + second) == Run(limits, Run(limits, p, first), second)
    decreases |first|
  {
    if first == [] {
      assert first + second == second;
    } else {
      RunMore(limits, Step(limits, p, first[0]), first[1..], second);
      assert (first + second)[1..] == first[1..] + second;
    }
  }

  lemma OneTurnMore(limits: Limits, p: Pool, w: WorkerId, n: nat)
    ensures Run(limits, p, Turns(w, n + 1)) == Run(limits, Step(limits, p, WorkerTurn(w)), Turns(w, n))
  {
    assert Turns(w, n + 1)[1..] == Turns(w, n);
  }

  lemma TurnTo(limits: Limits, p: Pool, w: WorkerId, n: nat) returns (q: Pool)
    requires Inv(limits, p)
    ensures q == Step(limits, p, WorkerTurn(w)) && Inv(limits, q)
    ensures Run(limits, p, Turns(w, n + 1)) == Run(limits, q, Turns(w, n))
    ensures Run(limits, q, Turns(w, 0)) == q
  {
    q := Step(limits, p, WorkerTurn(w));
    StepKeeps(limits, p, WorkerTurn(w));
    OneTurnMore(limits, p, w, n);
  }

  lemma QueuedIs(limits: Limits, p: Pool, f: FutureId)
    requires Inv(limits, p) && f in p.tasks
    ensures f < |p.futures| && f !in p.abandoned && p.futures[f].phase in {Pending, Cancelled}
  {
    assert FutureOk(p, f, p.futures[f]);
  }

  /** The idle worker serves the head of the queue: the call has its outcome, or was
      cancelled, and the worker is idle again. */
  lemma {:induction false} HeadIsServed(limits: Limits, p: Pool, w: WorkerId) returns (n: nat)
    requires Inv(limits, p) && w < |p.workers| && p.workers[w].Idle? && p.tasks != []
    ensures n <= 4
    ensures var q := Run(limits, p, Turns(w, n)); var f := p.tasks[0];
            && Inv(limits, q) && q.tasks == p.tasks[1..] && q.workers == p.workers && q.abandoned == p.abandoned
            && |q.futures| == |p.futures|
            && f < |p.futures|
            && (forall g :: 0 <= g < |p.futures| ==>
                  q.futures[g].phase == if g == f && p.futures[g].phase == Pending then Finished
                                        else p.futures[g].phase)
  {
    hide Inv, Step;
    var f := p.tasks[0];
    QueuedIs(limits, p, f);
    var p1 := TurnTo(limits, p, w, 2);
    TakeIs(limits, p, w);
    var p2 := TurnTo(limits, p1, w, 1);
    TurnIs(limits, p1, w);
    var p3 := TurnTo(limits, p2, w, 0);
    TurnIs(limits, p2, w);
    if p.futures[f].phase == Cancelled {
      n := 3;
      assert p3.workers == p.workers;
    } else {
      n := 4;
      var p4 := TurnTo(limits, p3, w, 0);
      TurnIs(limits, p3, w);
      OneTurnMore(limits, p, w, 3);
      OneTurnMore(limits, p1, w, 2);
      OneTurnMore(limits, p2, w, 1);
      assert p4.workers == p.workers;
    }
  }

  /** One idle worker is enough: its turns alone empty the queue, and every queued call
      that was not cancelled has its outcome. */
  lemma {:induction false} QueueIsServed(limits: Limits, p: Pool, w: WorkerId) returns (n: nat)
    requires Inv(limits, p) && w < |p.workers| && p.workers[w].Idle?
    ensures n <= 4 * |p.tasks|
    ensures var q := Run(limits, p, Turns(w, n));
            && q.tasks == [] && q.workers == p.workers && |q.futures| == |p.futures|
            && (forall g :: 0 <= g < |p.futures| ==>
                  q.futures[g].phase == if g in p.tasks && p.futures[g].phase == Pending then Finished
                                        else p.futures[g].phase)
    decreases |p.tasks|
  {
    if p.tasks == [] { return 0; }
    var first := HeadIsServed(limits, p, w);
    var served := Run(limits, p, Turns(w, first));
    hide Inv;
    var rest := QueueIsServed(limits, served, w);
    n := first + rest;
    assert Turns(w, n) == Turns(w, first) + Turns(w, rest);
    RunMore(limits, p, Turns(w, first), Turns(w, rest));
    assert p.tasks == [p.tasks[0]] + p.tasks[1..];
  }

  /** What abandoning is for: when every worker is stuck in its call and one of these calls
      is abandoned, the new worker serves the whole queue although none of them returns. */
  lemma StuckPoolServesTheQueue(limits: Limits, p: Pool, f: FutureId) returns (n: nat)
    requires Inv(limits, p) && f < |p.futures| && p.futures[f].phase == Running
    requires f !in p.abandoned && |p.abandoned| < limits.maxAbandoned
    ensures n <= 4 * |p.tasks|
    ensures var q := Run(limits, p, [Abandon(f, true)] + Turns(|p.workers|, n));
            && q.tasks == [] && f in q.abandoned
            && |q.futures| == |p.futures| && q.futures[f].phase == Running
            && (forall g <- p.tasks :: g < |q.futures| &&
                  q.futures[g].phase == if p.futures[g].phase == Pending then Finished else Cancelled)
  {
    AbandonIs(limits, p, f, true);
    StepKeeps(limits, p, Abandon(f, true));
    var p1 := Step(limits, p, Abandon(f, true));
    forall g <- p.tasks ensures g < |p.futures| && p.futures[g].phase in {Pending, Cancelled} {
      QueuedIs(limits, p, g);
    }
    hide Inv, Step;
    n := QueueIsServed(limits, p1, |p.workers|);
    TurnsKeepAbandoned(limits, p1, |p.workers|, n);
    var all := [Abandon(f, true)] + Turns(|p.workers|, n);
    assert all[1..] == Turns(|p.workers|, n);
  }

  lemma {:induction false} TurnsKeepAbandoned(limits: Limits, p: Pool, w: WorkerId, n: nat)
    ensures Run(limits, p, Turns(w, n)).abandoned == p.abandoned
    decreases n
  {
    if n > 0 {
      OneTurnMore(limits, p, w, n - 1);
      TurnsKeepAbandoned(limits, Step(limits, p, WorkerTurn(w)), w, n - 1);
    }
  }

  /** The reaper joins the worker that retired first and frees the place of its call. */
  lemma ReaperIs(limits: Limits, p: Pool)
    requires Inv(limits, p)
    ensures var q := Step(limits, p, ReaperTake);
            if p.reaping == None && p.retired != []
            then q == p.(retired := p.retired[1..], reaping := Some(p.retired[0]))
            else q == p
    ensures var q := Step(limits, p, ReaperJoined);
            if p.reaping.Some? && p.workers[p.reaping.value].Gone? then
              && q.workers == p.workers[p.reaping.value := Reaped] && q.reaping == None
              && q.abandoned == p.abandoned - {p.workers[p.reaping.value].call}
              && |q.abandoned| == |p.abandoned| - 1
              && q.retired == p.retired && q.futures == p.futures && q.tasks == p.tasks
            else q == p
  {
    if p.reaping.Some? {
      assert WorkerOk(p, p.reaping.value, p.workers[p.reaping.value]);
    }
  }

  // ----- the executor -------------------------------------------------------

  class BoundedDaemonExecutor {
    const limits: Limits
    var tasks: seq<FutureId>
    var futures: seq<Future>
    var workers: seq<Worker>
    var abandonedFutures: set<FutureId>
    var retiredWorkers: seq<WorkerId>
    var reaping: Option<WorkerId>

    ghost function State(): Pool
      reads this
    {
      Pool(tasks, futures, workers, abandonedFutures, retiredWorkers, reaping)
    }

    constructor (limits: Limits)
      ensures this.limits == limits && State() == Start(limits) && Inv(limits, State())
    {
      this.limits := limits;
      tasks, futures, workers := [], [], [];
      abandonedFutures, retiredWorkers, reaping := {}, [], None;
      new;
      while |workers| < limits.maxWorkers
        invariant |workers| <= limits.maxWorkers && workers == seq(|workers|, _ => Idle)
        invariant State() == Start(limits).(workers := workers)
      {
        workers := workers + [Idle];
      }
      StartInv(limits);
    }

    method Submit() returns (future: Option<FutureId>)
      modifies this`tasks, this`futures
      ensures State() == Step(limits, old(State()), Action.Submit)
      ensures future.None? <==> limits.maxPending > 0 && |old(tasks)| >= limits.maxPending
      ensures future.Some? ==> tasks == old(tasks) + [future.value] && future.value == |old(futures)|
    {
      if limits.maxPending > 0 && |tasks| >= limits.maxPending { return None; }
      future := Some(|futures|);
      tasks, futures := tasks + [|futures|], futures + [Future(Pending, None, false, 0)];
    }

    /** Replaces one stuck worker.  `ok` is the answer; it stays false when the new
        thread cannot be started and the call raises. */
    method Abandon(f: FutureId, threadStarts: bool) returns (ok: bool)
      requires Inv(limits, State()) && f < |futures|
      modifies this`abandonedFutures, this`futures, this`workers
      ensures State() == Step(limits, old(State()), Action.Abandon(f, threadStarts))
      ensures Inv(limits, State())
      ensures ok <==> futures[f].phase.Running? && f in abandonedFutures
      ensures ok <==> old(futures)[f].phase.Running?
                      && (f in old(abandonedFutures)
                          || (|old(abandonedFutures)| < limits.maxAbandoned && threadStarts))
      ensures ok && f !in old(abandonedFutures) ==>
                |workers| == |old(workers)| + 1 && workers[|old(workers)|] == Idle
      ensures !ok ==> State() == old(State())
    {
      AbandonKeeps(limits, State(), f, threadStarts);
      if !futures[f].phase.Running? { return false; }
      if f in abandonedFutures { return true; }
      if |abandonedFutures| >= limits.maxAbandoned { return false; }
      assert FutureOk(State(), f, futures[f]);
      var w := futures[f].holder.value;
      assert WorkerOk(State(), w, workers[w]);
      if !threadStarts { return false; }
      abandonedFutures := abandonedFutures + {f};
      futures := futures[f := futures[f].(everAbandoned := true)];
      workers := workers[w := Executing(f, true)] + [Idle];
      return true;
    }

    /** `self._tasks.get()` by an idle worker. */
    method TakeTask(w: WorkerId) returns (call: Option<FutureId>)
      requires Inv(limits, State()) && w < |workers| && workers[w].Idle?
      modifies this`tasks, this`futures, this`workers
      ensures State() == Step(limits, old(State()), WorkerTurn(w))
      ensures call.None? <==> old(tasks) == []
      ensures call.Some? ==> [call.value] + tasks == old(tasks) && workers[w] == Took(call.value)
    {
      if tasks == [] { return None; }
      var f := tasks[0];
      call := Some(f);
      tasks := tasks[1..];
      futures := futures[f := futures[f].(holder := Some(w))];
      workers := workers[w := Took(f)];
    }

    /** `set_running_or_notify_cancel`: a cancelled call is never run. */
    method BeginCall(w: WorkerId) returns (runs: bool)
      requires Inv(limits, State()) && w < |workers| && workers[w].Took?
      modifies this`futures, this`workers
      ensures State() == Step(limits, old(State()), WorkerTurn(w))
      ensures runs <==> old(futures)[old(workers)[w].call].phase.Pending?
      ensures runs <==> workers[w].Executing?
      ensures runs <==> futures[old(workers)[w].call].phase.Running?
    {
      var f := workers[w].call;
      assert WorkerOk(State(), w, workers[w]);
      if futures[f].phase.Cancelled? {
        workers := workers[w := Reported(f, false)];
        return false;
      }
      futures := futures[f := futures[f].(phase := Running)];
      workers := workers[w := Executing(f, false)];
      return true;
    }

    /** The call returned or raised: its outcome is set, abandoned or not. */
    method FinishCall(w: WorkerId)
      requires Inv(limits, State()) && w < |workers| && workers[w].Executing?
      modifies this`futures, this`workers
      ensures State() == Step(limits, old(State()), WorkerTurn(w))
      ensures futures[workers[w].call].phase.Finished?
    {
      var f := workers[w].call;
      assert WorkerOk(State(), w, workers[w]);
      futures := futures[f := futures[f].(phase := Finished)];
      workers := workers[w := Reported(f, workers[w].doomed)];
    }

    /** The locked look at the abandoned set, and the loop or the retirement that
        follows from it. */
    method CheckRetirement(w: WorkerId) returns (retires: bool)
      requires Inv(limits, State()) && w < |workers| && workers[w].Reported?
      modifies this`workers
      ensures State() == Step(limits, old(State()), WorkerTurn(w))
      ensures retires <==> old(workers)[w].doomed
      ensures retires <==> old(workers)[w].call in abandonedFutures
      ensures workers[w] == if retires then Exiting(old(workers)[w].call) else Idle
    {
      assert WorkerOk(State(), w, workers[w]);
      var f := workers[w].call;
      retires := f in abandonedFutures;
      workers := workers[w := if retires then Exiting(f) else Idle];
    }

    /** `_retired_workers.put`, which finds room without blocking. */
    method Retire(w: WorkerId)
      requires Inv(limits, State()) && w < |workers| && workers[w].Exiting?
      modifies this`futures, this`workers, this`retiredWorkers
      ensures State() == Step(limits, old(State()), WorkerTurn(w))
      ensures retiredWorkers == old(retiredWorkers) + [w]
      ensures |old(retiredWorkers)| < limits.maxAbandoned
    {
      assert WorkerOk(State(), w, workers[w]);
      CountStrict(Handed, Retiring, workers, w);
      var f := workers[w].call;
      retiredWorkers := retiredWorkers + [w];
      futures := futures[f := futures[f].(retirements := futures[f].retirements + 1)];
      workers := workers[w := Parked(f)];
    }

    /** One turn of `_reap_retired_workers` around a join that has returned. */
    method ReapOne()
      requires Inv(limits, State()) && reaping.None? && retiredWorkers != []
      requires workers[retiredWorkers[0]].Gone?
      modifies this`workers, this`abandonedFutures, this`retiredWorkers, this`reaping
      ensures State() == Run(limits, old(State()), [ReaperTake, ReaperJoined])
      ensures |abandonedFutures| == |old(abandonedFutures)| - 1
      ensures abandonedFutures == old(abandonedFutures) - {old(workers)[old(retiredWorkers)[0]].call}
      ensures retiredWorkers == old(retiredWorkers)[1..] && reaping.None?
    {
      ghost var before := State();
      var w := retiredWorkers[0];
      assert WorkerOk(before, w, workers[w]);
      retiredWorkers, reaping := retiredWorkers[1..], Some(w);
      assert State() == Step(limits, before, ReaperTake);
      assert Run(limits, State(), [ReaperJoined]) == Step(limits, State(), ReaperJoined);
      assert [ReaperTake, ReaperJoined][1..] == [ReaperJoined];
      abandonedFutures := abandonedFutures - {workers[w].call};
      workers, reaping := workers[w := Reaped], None;
    }
  }
}
