/** Starting a model actor when creation may never return
    (maze/core/scheduler/llm_instance.py: `_PendingActorStart`, `start_llm_instance`,
    `_invalidate_pending_start_locked`, `_actor_creation_finished`,
    `_schedule_late_actor_kill`).

    Every `start_llm_instance` call is a thread with one generation.  Besides it run
    the creation worker, the future's done-callback, the late-kill workers and any
    number of cancellations and shutdowns.  Each locked region, semaphore operation,
    future operation and queue operation is one step; threads interleave freely. */
module ActorStart {
  import opened Counting
  import opened Options

  type Id = string
  type Ticket = nat   // the generation's place in the order of starts

  const CLEANUP_SLOTS: nat := 8
  const KILL_QUEUE_SIZE: nat := 8

  /** The creation future; `Created` carries an actor. */
  datatype Future = NoFuture | Queued | Running | Cancelled | Failed | Created

  /** Where the starting thread is. */
  datatype Starter =
    | Reserved           // slot reserved, generation published
    | Submitting         // creation marked submitted
    | SubmitRefused      // the executor's queue was full
    | Releasing          // about to release the slot and raise
    | Submitted          // future exists, generation.future not yet set
    | Published          // generation.future set
    | Watching           // done-callback registered
    | Superseded         // found itself no longer current
    | Waiting            // blocked on the wake event
    | Expired            // deadline passed, before the locked region
    | ExpiredLate        // after it, before looking at the future
    | Awake              // wake event seen
    | CreationFailed     // result() raised
    | Deciding           // holds an actor
    | Claiming           // must hand the actor to the late killer
    | Enqueueing         // has claimed the kill, must submit it
    | Accepted           // instance registered, slot still held
    | Started
    | Raised
    | Violated           // "Stale actor cleanup admission invariant was violated"

  /** Where the future's done-callback is. */
  datatype Callback =
    | Unregistered | Armed | Inspecting | CallbackReleasing | Judging
    | CallbackClaiming | CallbackEnqueueing | CallbackDone | CallbackViolated

  datatype Kill = NoKill | Claimed | InQueue | Killing | Killed

  datatype Gen = Gen(
    id: Id,
    starter: Starter,
    callback: Callback,
    future: Future,
    submitted: bool,      // actor_creation_submitted
    published: bool,      // generation.future is not None
    cancelled: bool,      // cancel_error is set
    woken: bool,          // wake_event is set
    held: bool,           // _cleanup_slot_held
    releasing: bool,      // cleared the flag, semaphore not yet released
    delivered: bool,
    claimed: bool,        // late_actor_kill_claimed
    kill: Kill,
    registrations: nat,   // history: times the actor was registered
    claims: nat,          // history: times the late kill was claimed
    releases: nat)        // history: times the semaphore was released for it

  datatype Sys = Sys(
    gens: seq<Gen>,
    pending: map<Id, Ticket>,     // pending_start_generations
    actors: map<Id, Ticket>,      // id_to_instance_actor
    cancelledIds: set<Id>,        // cancelled_start_ids
    accepting: bool,              // accepting_launches
    permits: nat,                 // the semaphore
    killQueue: seq<Ticket>)

  const INIT := Sys([], map[], map[], {}, true, CLEANUP_SLOTS, [])

  datatype Action =
    | Begin(id: Id)
    | StarterTurn(t: Ticket, choice: bool)   // choice: deadline passed, or submit accepted
    | CallbackTurn(t: Ticket)
    | CreationTurn(t: Ticket, ok: bool)
    | KillTurn(t: Ticket, ok: bool)
    | SemaphoreRelease(t: Ticket)
    | RequestCancel(id: Id)
    | ClearCancel(id: Id)
    | Shutdown
    | ForgetInstance(id: Id)

  predicate IsDone(f: Future) {
    f.Cancelled? || f.Failed? || f.Created?
  }

  predicate Current(s: Sys, t: Ticket) {
    t < |s.gens| && s.gens[t].id in s.pending && s.pending[s.gens[t].id] == t
  }

  // ----- the atomic steps ---------------------------------------------------

  function NewGen(id: Id): Gen {
    Gen(id, Reserved, Unregistered, NoFuture, false, false, false, false,
        true, false, false, false, NoKill, 0, 0, 0)
  }

  /** First half of `release_cleanup_slot`: only the holder goes on to the semaphore. */
  function BeginRelease(g: Gen): Gen {
    if g.held then g.(held := false, releasing := true) else g
  }

  /** `future.cancel()` wins only before a worker has taken the future. */
  predicate Cancellable(f: Future) {
    f.Queued? || f.Cancelled?
  }

  /** `_invalidate_pending_start_locked` on the generation it pops. */
  function Invalidated(g: Gen): Gen {
    var h := g.(cancelled := true, woken := true);
    if !g.published then (if !g.submitted then BeginRelease(h) else h)
    else if Cancellable(g.future) then BeginRelease(h.(future := Cancelled))
    else h
  }

  function Invalidate(s: Sys, id: Id): Sys {
    if id in s.pending && s.pending[id] < |s.gens| then
      var t := s.pending[id];
      s.(pending := s.pending - {id}, gens := s.gens[t := Invalidated(s.gens[t])])
    else s
  }

  /** The pending starts of these instances, invalidated at once. */
  function InvalidateThese(s: Sys, ids: set<Id>): Sys {
    s.(pending := s.pending - ids,
       gens := seq(|s.gens|, i requires 0 <= i < |s.gens| =>
                 if Current(s, i) && s.gens[i].id in ids then Invalidated(s.gens[i]) else s.gens[i]))
  }

  function DoBegin(s: Sys, id: Id): Sys {
    if !s.accepting || id in s.cancelledIds || id in s.actors || id in s.pending
       || s.permits == 0
    then s
    else s.(gens := s.gens + [NewGen(id)], pending := s.pending[id := |s.gens|],
            permits := s.permits - 1)
  }

  /** What one turn does to its own generation, and whether it pops the generation
      from the pending map or registers its actor. */
  datatype Turn = Turn(gen: Gen, withdraws: bool, registers: bool)

  function Stay(g: Gen): Turn { Turn(g, false, false) }

  function Apply(s: Sys, t: Ticket, r: Turn): Sys
    requires t < |s.gens|
  {
    s.(gens := s.gens[t := r.gen],
       pending := if r.withdraws then s.pending - {r.gen.id} else s.pending,
       actors := if r.registers then s.actors[r.gen.id := t] else s.actors)
  }

  function Claim(g: Gen): Gen {
    g.(claimed := true, kill := Claimed, claims := g.claims + 1)
  }

  // The starting thread's turns, in five groups of positions.

  predicate IsExpiring(p: Starter) { p.Reserved? || p.Expired? }

  predicate IsSubmitting(p: Starter) { p.Submitting? || p.SubmitRefused? || p.Releasing? }

  predicate IsPublishing(p: Starter) { p.Submitted? || p.Published? || p.Watching? || p.Superseded? }

  predicate IsWaiting(p: Starter) { p.Waiting? || p.ExpiredLate? || p.Awake? }

  predicate IsDeciding(p: Starter) { p.CreationFailed? || p.Deciding? || p.Claiming? || p.Accepted? }

  /** The turns in which the thread may invalidate its own start. */
  function ExpiringGen(g: Gen, current: bool, choice: bool): Turn
    requires IsExpiring(g.starter)
  {
    match g.starter
    case Reserved =>
      if !current then Stay(g.(starter := Raised))
      else if choice then Turn(Invalidated(g).(starter := Raised), true, false)
      else Stay(g.(submitted := true, starter := Submitting))
    case Expired =>
      if current then Turn(Invalidated(g).(starter := ExpiredLate), true, false)
      else Stay(g.(starter := ExpiredLate))
  }

  /** Handing the creation call to the executor, whose queue may be full. */
  function SubmittingGen(g: Gen, current: bool, choice: bool): Turn
    requires IsSubmitting(g.starter)
  {
    match g.starter
    case Submitting =>
      Stay(if choice then g.(future := Queued, starter := Submitted)
           else g.(starter := SubmitRefused))
    case SubmitRefused => Turn(g.(submitted := false, starter := Releasing), current, false)
    case Releasing => Stay(BeginRelease(g).(starter := Raised))
  }

  /** Publishing the future, and cancelling it if the start was overtaken. */
  function PublishingGen(g: Gen, current: bool): Turn
    requires IsPublishing(g.starter)
  {
    match g.starter
    case Submitted => Stay(g.(published := true, starter := Published))
    case Published => Stay(g.(callback := Armed, starter := Watching))
    case Watching => Stay(g.(starter := if current then Waiting else Superseded))
    case Superseded =>
      Stay(g.(future := if Cancellable(g.future) then Cancelled else g.future, starter := Waiting))
  }

  function WaitingGen(g: Gen, choice: bool): Turn
    requires IsWaiting(g.starter)
  {
    match g.starter
    case Waiting =>
      Stay(if choice then g.(starter := Expired)
           else if g.woken then g.(starter := Awake)
           else g)
    case ExpiredLate => Stay(g.(starter := if g.future.Created? then Claiming else Raised))
    case Awake =>
      Stay(g.(starter := if !IsDone(g.future) then Raised
                         else if g.future.Created? then Deciding
                         else CreationFailed))
  }

  /** Delivering or disowning the actor.  `admitted`: launches are accepted and the id
      is neither cancelled nor registered. */
  function DecidingGen(g: Gen, current: bool, admitted: bool, choice: bool): Turn
    requires IsDeciding(g.starter)
  {
    match g.starter
    case CreationFailed => Turn(g.(starter := Releasing), current, false)
    case Deciding =>
      if current && admitted && !choice
      then Turn(g.(starter := Accepted, delivered := true, registrations := g.registrations + 1),
                true, true)
      else Turn(g.(starter := Claiming), current, false)
    case Claiming =>
      Stay(if g.delivered || g.claimed then g.(starter := Raised)
           else Claim(g).(starter := Enqueueing))
    case Accepted => Stay(BeginRelease(g).(starter := Started))
  }

  function StarterGen(g: Gen, current: bool, admitted: bool, choice: bool): Turn {
    if IsExpiring(g.starter) then ExpiringGen(g, current, choice)
    else if IsSubmitting(g.starter) then SubmittingGen(g, current, choice)
    else if IsPublishing(g.starter) then PublishingGen(g, current)
    else if IsWaiting(g.starter) then WaitingGen(g, choice)
    else if IsDeciding(g.starter) then DecidingGen(g, current, admitted, choice)
    else Stay(g)
  }

  /** Submitting the kill: the queue is bounded and does not block. */
  function Enqueue(s: Sys, t: Ticket, queued: Gen, refused: Gen): Sys
    requires t < |s.gens|
  {
    if |s.killQueue| < KILL_QUEUE_SIZE
    then s.(gens := s.gens[t := queued], killQueue := s.killQueue + [t])
    else s.(gens := s.gens[t := refused])
  }

  function StarterStep(s: Sys, t: Ticket, choice: bool): Sys
    requires t < |s.gens|
  {
    var g := s.gens[t];
    if g.starter.Enqueueing? then
      Enqueue(s, t, g.(kill := InQueue, starter := Raised), g.(claimed := false, starter := Violated))
    else
      var admitted := s.accepting && g.id !in s.cancelledIds && g.id !in s.actors;
      Apply(s, t, StarterGen(g, Current(s, t), admitted, choice))
  }

  function CallbackGen(g: Gen, current: bool): Gen {
    match g.callback
    case Armed => if IsDone(g.future) then g.(woken := true, callback := Inspecting) else g
    case Inspecting =>
      g.(callback := if g.future.Created? then Judging else CallbackReleasing)
    case CallbackReleasing => BeginRelease(g).(callback := CallbackDone)
    case Judging => g.(callback := if current then CallbackDone else CallbackClaiming)
    case CallbackClaiming =>
      if g.delivered || g.claimed then g.(callback := CallbackDone)
      else Claim(g).(callback := CallbackEnqueueing)
    case _ => g
  }

  function CallbackStep(s: Sys, t: Ticket): Sys
    requires t < |s.gens|
  {
    var g := s.gens[t];
    if g.callback.CallbackEnqueueing? then
      Enqueue(s, t, g.(kill := InQueue, callback := CallbackDone),
              g.(claimed := false, callback := CallbackViolated))
    else Apply(s, t, Stay(CallbackGen(g, Current(s, t))))
  }

  /** A worker takes the future, or the creation call returns. */
  function CreationGen(g: Gen, ok: bool): Gen {
    match g.future
    case Queued => g.(future := Running)
    case Running => g.(future := if ok then Created else Failed)
    case _ => g
  }

  /** A killer takes the head of the queue, or one kill attempt ends; it retries
      until the actor's death is confirmed. */
  function KillStep(s: Sys, t: Ticket, ok: bool): Sys
    requires t < |s.gens|
  {
    var g := s.gens[t];
    if g.kill.InQueue? && s.killQueue != [] && s.killQueue[0] == t then
      s.(gens := s.gens[t := g.(kill := Killing)], killQueue := s.killQueue[1..])
    else if g.kill.Killing? && ok then
      Apply(s, t, Stay(BeginRelease(g).(kill := Killed)))
    else s
  }

  /** Second half of `release_cleanup_slot`. */
  function SemaphoreStep(s: Sys, t: Ticket): Sys
    requires t < |s.gens|
  {
    var g := s.gens[t];
    if g.releasing
    then s.(gens := s.gens[t := g.(releasing := false, releases := g.releases + 1)],
            permits := s.permits + 1)
    else s
  }

  function Step(s: Sys, a: Action): Sys {
    match a
    case Begin(id) => DoBegin(s, id)
    case StarterTurn(t, choice) => if t < |s.gens| then StarterStep(s, t, choice) else s
    case CallbackTurn(t) => if t < |s.gens| then CallbackStep(s, t) else s
    case CreationTurn(t, ok) =>
      if t < |s.gens| then Apply(s, t, Stay(CreationGen(s.gens[t], ok))) else s
    case KillTurn(t, ok) => if t < |s.gens| then KillStep(s, t, ok) else s
    case SemaphoreRelease(t) => if t < |s.gens| then SemaphoreStep(s, t) else s
    case RequestCancel(id) =>
      Invalidate(s.(cancelledIds := s.cancelledIds + {id}), id)
    case ClearCancel(id) => s.(cancelledIds := s.cancelledIds - {id})
    case Shutdown => InvalidateThese(s.(accepting := false), s.pending.Keys)
    case ForgetInstance(id) =>
      s.(actors := s.actors - {id}, cancelledIds := s.cancelledIds - {id})
  }

  function Run(s: Sys, actions: seq<Action>): Sys
    decreases |actions|
  {
    if actions == [] then s else Run(Step(s, actions[0]), actions[1..])
  }

  // ----- the invariant ------------------------------------------------------

  predicate UsesSlot(g: Gen) { g.held || g.releasing }

  predicate IsInQueue(g: Gen) { g.kill.InQueue? }

  function Bit(b: bool): nat { if b then 1 else 0 }

  /** The starts that may still be the current one for their instance. */
  predicate Live(p: Starter) {
    p.Reserved? || p.Submitting? || p.SubmitRefused? || p.Submitted? || p.Published?
    || p.Watching? || p.Waiting? || p.Expired? || p.Awake? || p.CreationFailed? || p.Deciding?
  }

  predicate HoldsActor(p: Starter) {
    p.Deciding? || p.Claiming? || p.Enqueueing? || p.Accepted? || p.Started?
  }

  /** Each generation's slot is acquired once and given back at most once. */
  predicate SlotOnce(g: Gen) {
    g.releases + Bit(g.releasing) + Bit(g.held) == 1
  }

  /** Thread positions agree with the future, its publication and the callback. */
  predicate Shape(g: Gen) {
    && (g.starter.Reserved? || g.starter.Submitting? || g.starter.SubmitRefused? ==> g.future.NoFuture?)
    && (g.future.NoFuture? ==>
          g.starter.Reserved? || g.starter.Submitting? || g.starter.SubmitRefused?
          || g.starter.Releasing? || g.starter.Raised?)
    && (g.published <==> !g.future.NoFuture? && !g.starter.Submitted?)
    && (!g.callback.Unregistered? <==> g.published && !g.starter.Published?)
    && (!g.callback.Unregistered? && !g.callback.Armed? ==> IsDone(g.future) && g.woken)
    && (g.callback.Judging? || g.callback.CallbackClaiming? || g.callback.CallbackEnqueueing? ==>
          g.future.Created?)
    && (g.callback.CallbackReleasing? ==> g.future.Cancelled? || g.future.Failed?)
    && (HoldsActor(g.starter) ==> g.future.Created?)
    && (g.starter.CreationFailed? ==> g.future.Cancelled? || g.future.Failed?)
    && (g.starter.Releasing? ==> !g.future.Created? && !g.future.Queued? && !g.future.Running?)
    && (g.starter.Reserved? ==> !g.submitted)
    && (g.starter.Submitting? || g.starter.Submitted? ==> g.submitted)
  }

  /** While an actor exists or may still appear, the slot is kept. */
  predicate SlotKept(g: Gen) {
    && (g.future.Queued? || g.future.Running? || g.starter.Submitting? ==> g.held)
    && (g.future.Created? ==> g.held || g.starter.Started? || g.kill.Killed?)
  }

  /** ... and given back once nothing can need it. */
  predicate SlotFreed(g: Gen, current: bool) {
    && (g.starter.Reserved? ==> (g.held <==> current))
    && (g.future.NoFuture? && g.starter.Raised? ==> !g.held)
    && (g.callback.CallbackDone? && (g.future.Cancelled? || g.future.Failed?) ==> !g.held)
    && (g.starter.Started? || g.kill.Killed? ==> !g.held)
  }

  /** Delivered or claimed, never both; each at most once. */
  predicate Fate(g: Gen) {
    && (g.delivered <==> g.starter.Accepted? || g.starter.Started?)
    && (g.delivered ==> !g.claimed && !g.cancelled)
    && g.registrations == Bit(g.delivered)
    && g.claims == Bit(g.claimed)
    && (g.claimed <==> !g.kill.NoKill?)
    && (g.claimed ==> g.future.Created?)
    && (g.kill.Claimed? <==> g.starter.Enqueueing? || g.callback.CallbackEnqueueing?)
    && !(g.starter.Enqueueing? && g.callback.CallbackEnqueueing?)
    && !g.starter.Violated? && !g.callback.CallbackViolated?
  }

  /** Somebody still answers for an actor that is neither delivered nor claimed. */
  predicate Responsible(g: Gen) {
    && (g.starter.Raised? && (g.future.Queued? || g.future.Running?) ==> g.callback.Armed?)
    && (g.starter.Raised? && g.future.Created? && !g.claimed ==>
          g.callback.Armed? || g.callback.Inspecting? || g.callback.Judging?
          || g.callback.CallbackClaiming?)
  }

  /** Cancelling always wakes the waiting starter. */
  predicate WakeUps(g: Gen, current: bool) {
    && (g.woken && !IsDone(g.future) ==> !current)
    && (g.starter.Awake? || g.starter.Superseded? ==> g.woken)
    && (g.starter.Submitting? || g.starter.Submitted? || g.starter.Published? || g.starter.Watching?
        || g.starter.Waiting? ==>
          current || g.woken)
  }

  predicate GenInv(g: Gen, current: bool) {
    && SlotOnce(g) && Shape(g) && SlotKept(g) && SlotFreed(g, current) && Fate(g)
    && Responsible(g) && WakeUps(g, current)
    && (current ==> Live(g.starter) && !g.cancelled && !g.claimed
                    && !g.callback.CallbackClaiming? && !g.callback.CallbackEnqueueing?)
  }

  ghost predicate AllGens(p: (Gen, bool) -> bool, s: Sys) {
    forall t: Ticket :: t < |s.gens| ==> p(s.gens[t], Current(s, t))
  }

  ghost predicate Locals(s: Sys) {
    AllGens(GenInv, s)
  }

  ghost predicate Indexed(s: Sys) {
    forall id <- s.pending :: s.pending[id] < |s.gens|
  }

  ghost predicate Maps(s: Sys) {
    && (forall id <- s.pending :: s.pending[id] < |s.gens| && s.gens[s.pending[id]].id == id)
    && (forall id <- s.actors ::
          s.actors[id] < |s.gens| && s.gens[s.actors[id]].id == id && s.gens[s.actors[id]].delivered)
  }

  /** The semaphore counts slots; the kill queue is exactly the queued kills. */
  ghost predicate Counts(s: Sys) {
    && s.permits + Count(UsesSlot, s.gens) == CLEANUP_SLOTS
    && |s.killQueue| == Count(IsInQueue, s.gens)
    && (forall i :: 0 <= i < |s.killQueue| ==>
          s.killQueue[i] < |s.gens| && s.gens[s.killQueue[i]].kill.InQueue?)
    && (forall i, j :: 0 <= i < j < |s.killQueue| ==> s.killQueue[i] != s.killQueue[j])
  }

  ghost predicate Inv(s: Sys) {
    Locals(s) && Maps(s) && Counts(s)
  }

  /** Replacing one generation and touching at most its own pending entry leaves
      every other generation's local property alone. */
  lemma PutAll(p: (Gen, bool) -> bool, s: Sys, t: Ticket, u: Sys)
    requires AllGens(p, s) && t < |s.gens| == |u.gens| && u.gens == s.gens[t := u.gens[t]]
    requires u.pending == s.pending || (Current(s, t) && u.pending == s.pending - {s.gens[t].id})
    requires u.gens[t].id == s.gens[t].id
    requires p(u.gens[t], Current(u, t))
    ensures AllGens(p, u)
  {
    forall i: Ticket | i < |u.gens| ensures p(u.gens[i], Current(u, i)) {
      if i != t {
        assert u.gens[i] == s.gens[i];
        assert Current(u, i) == Current(s, i);
      }
    }
  }

  lemma PutMaps(s: Sys, t: Ticket, u: Sys)
    requires Maps(s) && t < |s.gens| == |u.gens| && u.gens == s.gens[t := u.gens[t]]
    requires u.pending == s.pending || u.pending == s.pending - {s.gens[t].id}
    requires u.gens[t].id == s.gens[t].id
    requires u.actors == s.actors || (u.gens[t].delivered && u.actors == s.actors[u.gens[t].id := t])
    requires s.gens[t].delivered ==> u.gens[t].delivered
    ensures Maps(u)
  {
  }

  /** A replacement that keeps slot use and place relative to the kill queue. */
  lemma PutSameCounts(s: Sys, t: Ticket, u: Sys)
    requires Counts(s) && t < |s.gens| == |u.gens| && u.gens == s.gens[t := u.gens[t]]
    requires u.permits == s.permits && u.killQueue == s.killQueue
    requires UsesSlot(u.gens[t]) == UsesSlot(s.gens[t])
    requires IsInQueue(u.gens[t]) == IsInQueue(s.gens[t])
    ensures Counts(u)
  {
    PutCounts(s, t, u.gens[t]);
  }

  /** The bookkeeping of one replaced generation. */
  lemma PutCounts(s: Sys, t: Ticket, g: Gen)
    requires t < |s.gens|
    ensures Count(UsesSlot, s.gens[t := g])
            == Count(UsesSlot, s.gens) - Bit(UsesSlot(s.gens[t])) + Bit(UsesSlot(g))
    ensures Count(IsInQueue, s.gens[t := g])
            == Count(IsInQueue, s.gens) - Bit(IsInQueue(s.gens[t])) + Bit(IsInQueue(g))
  {
    CountUpdate(UsesSlot, s.gens, t, g);
    CountUpdate(IsInQueue, s.gens, t, g);
  }

  /** A start that has claimed a kill but not yet queued it leaves room in the queue:
      every queued kill holds a slot, so does this one, and slots are as many as
      queue places. */
  lemma RoomForTheKill(s: Sys, t: Ticket)
    requires Inv(s) && t < |s.gens| && s.gens[t].kill.Claimed?
    ensures |s.killQueue| < KILL_QUEUE_SIZE
  {
    forall i | 0 <= i < |s.gens| ensures IsInQueue(s.gens[i]) ==> UsesSlot(s.gens[i]) {
      assert GenInv(s.gens[i], Current(s, i));
    }
    assert GenInv(s.gens[t], Current(s, t));
    CountStrict(IsInQueue, UsesSlot, s.gens, t);
  }

  lemma InvalidatedKeeps(g: Gen)
    requires GenInv(g, true)
    ensures Harmless(g, true, Turn(Invalidated(g), true, false))
    ensures Invalidated(g).kill == g.kill && Invalidated(g).delivered == g.delivered
  {
    match g.future
    case NoFuture =>
    case Queued =>
    case _ =>
  }

  /** A turn that keeps id, slot use and place relative to the kill queue. */
  predicate Harmless(g: Gen, current: bool, r: Turn) {
    && r.gen.id == g.id
    && UsesSlot(r.gen) == UsesSlot(g) && IsInQueue(r.gen) == IsInQueue(g)
    && (r.withdraws ==> current)
    && (r.registers ==> r.gen.delivered) && (g.delivered ==> r.gen.delivered)
    && GenInv(r.gen, current && !r.withdraws)
  }

  lemma HarmlessKeeps(s: Sys, t: Ticket, r: Turn)
    requires Inv(s) && t < |s.gens| && Harmless(s.gens[t], Current(s, t), r)
    ensures Inv(Apply(s, t, r))
  {
    hide GenInv;
    var u := Apply(s, t, r);
    assert Current(u, t) == (Current(s, t) && !r.withdraws);
    PutAll(GenInv, s, t, u);
    PutMaps(s, t, u);
    PutSameCounts(s, t, u);
    hide Maps, Counts, Locals;
  }

  /** The parts of the local property that tell how a turn may end. */
  lemma TurnBits(g: Gen, current: bool)
    requires GenInv(g, current)
    ensures g.delivered <==> g.starter.Accepted? || g.starter.Started?
    ensures g.claimed <==> !g.kill.NoKill?
    ensures g.starter.Superseded? || g.starter.Accepted? || g.starter.Started? ==> !current
  {
  }

  // Local property, one position of a thread after another.

  lemma FromReserved(g: Gen, current: bool)
    requires GenInv(g, current) && g.starter.Reserved?
    ensures !current ==> GenInv(g.(starter := Raised), false)
    ensures current ==> GenInv(Invalidated(g).(starter := Raised), false)
    ensures current ==> GenInv(g.(submitted := true, starter := Submitting), true)
  {
  }

  lemma FromSubmitting(g: Gen, current: bool)
    requires GenInv(g, current) && g.starter.Submitting?
    ensures GenInv(g.(future := Queued, starter := Submitted), current)
    ensures GenInv(g.(starter := SubmitRefused), current)
  {
  }

  lemma FromRefused(g: Gen, current: bool)
    requires GenInv(g, current)
    ensures g.starter.SubmitRefused? ==> GenInv(g.(submitted := false, starter := Releasing), false)
    ensures g.starter.CreationFailed? ==> GenInv(g.(starter := Releasing), false)
    ensures g.starter.Releasing? ==> GenInv(BeginRelease(g).(starter := Raised), current)
  {
  }

  lemma FromSubmitted(g: Gen, current: bool)
    requires GenInv(g, current)
    ensures g.starter.Submitted? ==> GenInv(g.(published := true, starter := Published), current)
    ensures g.starter.Published? ==> GenInv(g.(callback := Armed, starter := Watching), current)
  {
  }

  lemma FromWatching(g: Gen, current: bool)
    requires GenInv(g, current)
    ensures g.starter.Watching? && current ==> GenInv(g.(starter := Waiting), true)
    ensures g.starter.Watching? && !current ==> GenInv(g.(starter := Superseded), false)
    ensures g.starter.Superseded? ==> GenInv(g.(starter := Waiting), current)
    ensures g.starter.Superseded? && Cancellable(g.future) ==>
              GenInv(g.(future := Cancelled, starter := Waiting), current)
  {
  }

  lemma FromWaiting(g: Gen, current: bool)
    requires GenInv(g, current) && g.starter.Waiting?
    ensures GenInv(g.(starter := Expired), current)
    ensures g.woken ==> GenInv(g.(starter := Awake), current)
  {
  }

  lemma FromExpired(g: Gen, current: bool)
    requires GenInv(g, current) && g.starter.Expired?
    ensures !current ==> GenInv(g.(starter := ExpiredLate), false)
    ensures current ==> GenInv(Invalidated(g).(starter := ExpiredLate), false)
  {
  }

  lemma FromExpiredLate(g: Gen, current: bool)
    requires GenInv(g, current) && g.starter.ExpiredLate?
    ensures g.future.Created? ==> GenInv(g.(starter := Claiming), current)
    ensures !g.future.Created? ==> GenInv(g.(starter := Raised), current)
  {
  }

  lemma FromAwake(g: Gen, current: bool)
    requires GenInv(g, current) && g.starter.Awake?
    ensures !IsDone(g.future) ==> GenInv(g.(starter := Raised), current)
    ensures g.future.Created? ==> GenInv(g.(starter := Deciding), current)
    ensures IsDone(g.future) && !g.future.Created? ==> GenInv(g.(starter := CreationFailed), current)
  {
  }

  lemma FromDeciding(g: Gen, current: bool)
    requires GenInv(g, current) && g.starter.Deciding?
    ensures current ==>
              GenInv(g.(starter := Accepted, delivered := true, registrations := g.registrations + 1),
                     false)
    ensures GenInv(g.(starter := Claiming), false)
  {
  }

  lemma FromClaiming(g: Gen, current: bool)
    requires GenInv(g, current)
    ensures g.starter.Claiming? && (g.delivered || g.claimed) ==> GenInv(g.(starter := Raised), current)
    ensures g.starter.Claiming? && !g.delivered && !g.claimed ==>
              GenInv(Claim(g).(starter := Enqueueing), current)
    ensures g.starter.Accepted? ==> GenInv(BeginRelease(g).(starter := Started), current)
  {
  }

  lemma ExpiringTurn(g: Gen, current: bool, choice: bool)
    requires GenInv(g, current) && IsExpiring(g.starter)
    ensures Harmless(g, current, ExpiringGen(g, current, choice))
  {
    TurnBits(g, current);
    hide GenInv;
    match g.starter
    case Reserved => FromReserved(g, current);
    case Expired => FromExpired(g, current);
  }

  lemma SubmittingTurn(g: Gen, current: bool, choice: bool)
    requires GenInv(g, current) && IsSubmitting(g.starter)
    ensures Harmless(g, current, SubmittingGen(g, current, choice))
  {
    TurnBits(g, current);
    hide GenInv;
    match g.starter
    case Submitting => FromSubmitting(g, current);
    case SubmitRefused => FromRefused(g, current);
    case Releasing => FromRefused(g, current);
  }

  lemma PublishingTurn(g: Gen, current: bool)
    requires GenInv(g, current) && IsPublishing(g.starter)
    ensures Harmless(g, current, PublishingGen(g, current))
  {
    TurnBits(g, current);
    hide GenInv;
    match g.starter
    case Submitted => FromSubmitted(g, current);
    case Published => FromSubmitted(g, current);
    case Watching => FromWatching(g, current);
    case Superseded => FromWatching(g, current);
  }

  lemma WaitingTurn(g: Gen, current: bool, choice: bool)
    requires GenInv(g, current) && IsWaiting(g.starter)
    ensures Harmless(g, current, WaitingGen(g, choice))
  {
    TurnBits(g, current);
    hide GenInv;
    match g.starter
    case Waiting => FromWaiting(g, current);
    case ExpiredLate => FromExpiredLate(g, current);
    case Awake => FromAwake(g, current);
  }

  lemma DecidingTurn(g: Gen, current: bool, admitted: bool, choice: bool)
    requires GenInv(g, current) && IsDeciding(g.starter)
    ensures Harmless(g, current, DecidingGen(g, current, admitted, choice))
  {
    TurnBits(g, current);
    hide GenInv;
    match g.starter
    case CreationFailed => FromRefused(g, current);
    case Deciding => FromDeciding(g, current);
    case Claiming => FromClaiming(g, current);
    case Accepted => FromClaiming(g, current);
  }

  lemma StarterTurnKeeps(g: Gen, current: bool, admitted: bool, choice: bool)
    requires GenInv(g, current)
    ensures Harmless(g, current, StarterGen(g, current, admitted, choice))
  {
    hide GenInv, IsExpiring, IsSubmitting, IsPublishing, IsWaiting, IsDeciding,
         ExpiringGen, SubmittingGen, PublishingGen, WaitingGen, DecidingGen;
    if IsExpiring(g.starter) { ExpiringTurn(g, current, choice); }
    else if IsSubmitting(g.starter) { SubmittingTurn(g, current, choice); }
    else if IsPublishing(g.starter) { PublishingTurn(g, current); }
    else if IsWaiting(g.starter) { WaitingTurn(g, current, choice); }
    else if IsDeciding(g.starter) { DecidingTurn(g, current, admitted, choice); }
  }

  /** Once the kill is queued, its claimer's thread is done. */
  lemma QueuedKeeps(g: Gen, current: bool)
    requires GenInv(g, current)
    ensures g.starter.Enqueueing? ==> GenInv(g.(kill := InQueue, starter := Raised), current)
    ensures g.callback.CallbackEnqueueing? ==>
              GenInv(g.(kill := InQueue, callback := CallbackDone), current)
    ensures g.starter.Enqueueing? || g.callback.CallbackEnqueueing? ==> g.kill.Claimed?
  {
  }

  lemma FromArmed(g: Gen, current: bool)
    requires GenInv(g, current)
    ensures g.callback.Armed? && IsDone(g.future) ==>
              GenInv(g.(woken := true, callback := Inspecting), current)
    ensures g.callback.Inspecting? && g.future.Created? ==> GenInv(g.(callback := Judging), current)
    ensures g.callback.Inspecting? && !g.future.Created? ==>
              GenInv(g.(callback := CallbackReleasing), current)
    ensures g.callback.CallbackReleasing? ==>
              GenInv(BeginRelease(g).(callback := CallbackDone), current)
  {
  }

  lemma FromJudging(g: Gen, current: bool)
    requires GenInv(g, current)
    ensures g.callback.Judging? && current ==> GenInv(g.(callback := CallbackDone), current)
    ensures g.callback.Judging? && !current ==> GenInv(g.(callback := CallbackClaiming), current)
    ensures g.callback.CallbackClaiming? && (g.delivered || g.claimed) ==>
              GenInv(g.(callback := CallbackDone), current)
    ensures g.callback.CallbackClaiming? && !g.delivered && !g.claimed ==>
              GenInv(Claim(g).(callback := CallbackEnqueueing), current)
  {
  }

  lemma CallbackTurnKeeps(g: Gen, current: bool)
    requires GenInv(g, current)
    ensures Harmless(g, current, Stay(CallbackGen(g, current)))
  {
    TurnBits(g, current);
    hide GenInv;
    match g.callback
    case Armed => FromArmed(g, current);
    case Inspecting => FromArmed(g, current);
    case CallbackReleasing => FromArmed(g, current);
    case Judging => FromJudging(g, current);
    case CallbackClaiming => FromJudging(g, current);
    case _ =>
  }

  lemma CreationTurnKeeps(g: Gen, current: bool, ok: bool)
    requires GenInv(g, current)
    ensures Harmless(g, current, Stay(CreationGen(g, ok)))
  {
    match g.future
    case Queued =>
    case Running =>
    case _ =>
  }

  lemma KilledKeeps(g: Gen, current: bool)
    requires GenInv(g, current) && g.kill.Killing?
    ensures Harmless(g, current, Stay(BeginRelease(g).(kill := Killed)))
  {
  }

  lemma KillTakenKeeps(g: Gen, current: bool)
    requires GenInv(g, current) && g.kill.InQueue?
    ensures GenInv(g.(kill := Killing), current)
  {
  }

  lemma InvalidateKeeps(s: Sys, id: Id)
    requires Inv(s)
    ensures Inv(Invalidate(s, id))
  {
    hide SlotOnce, Shape, SlotKept, SlotFreed, Fate, Responsible, WakeUps, Invalidated;
    if id in s.pending {
      var t := s.pending[id];
      assert GenInv(s.gens[t], Current(s, t));
      InvalidatedKeeps(s.gens[t]);
      HarmlessKeeps(s, t, Turn(Invalidated(s.gens[t]), true, false));
    }
  }

  lemma InvalidateTheseKeeps(s: Sys, ids: set<Id>)
    requires Inv(s)
    ensures Inv(InvalidateThese(s, ids))
  {
    hide GenInv, Invalidated;
    var u := InvalidateThese(s, ids);
    forall i: Ticket | i < |s.gens|
      ensures GenInv(u.gens[i], Current(u, i)) && u.gens[i].id == s.gens[i].id
      ensures UsesSlot(u.gens[i]) == UsesSlot(s.gens[i])
      ensures u.gens[i].kill == s.gens[i].kill && u.gens[i].delivered == s.gens[i].delivered
    {
      assert GenInv(s.gens[i], Current(s, i));
      if Current(s, i) && s.gens[i].id in ids { InvalidatedKeeps(s.gens[i]); }
    }
    CountSame(UsesSlot, UsesSlot, s.gens, u.gens);
    CountSame(IsInQueue, IsInQueue, s.gens, u.gens);
  }

  /** Invalidating one start after another is invalidating them together. */
  lemma InvalidateOneMore(s: Sys, ids: set<Id>, id: Id)
    requires Maps(s) && id in s.pending && id !in ids
    ensures Indexed(InvalidateThese(s, ids))
    ensures Invalidate(InvalidateThese(s, ids), id) == InvalidateThese(s, ids + {id})
  {
    hide Invalidated;
    InvalidatedSameId();
    var u := InvalidateThese(s, ids);
    var v := Invalidate(u, id);
    var w := InvalidateThese(s, ids + {id});
    assert v.pending == w.pending;
    assert |v.gens| == |w.gens|;
    forall i: Ticket | i < |s.gens| ensures v.gens[i] == w.gens[i] {}
  }

  lemma InvalidatedSameId()
    ensures forall g: Gen :: Invalidated(g).id == g.id
  {
  }

  lemma AppendAll(p: (Gen, bool) -> bool, s: Sys, u: Sys, g: Gen)
    requires AllGens(p, s) && u.gens == s.gens + [g] && g.id !in s.pending
    requires u.pending == s.pending[g.id := |s.gens|] && p(g, true)
    ensures AllGens(p, u)
  {
    forall i: Ticket | i < |u.gens| ensures p(u.gens[i], Current(u, i)) {
      if i < |s.gens| {
        assert u.gens[i] == s.gens[i] && Current(u, i) == Current(s, i);
      }
    }
  }

  lemma NewGenOk(id: Id)
    ensures GenInv(NewGen(id), true)
  {
  }

  lemma BeginMapsAndCounts(s: Sys, u: Sys, g: Gen)
    requires Maps(s) && Counts(s) && u.gens == s.gens + [g] && g.id !in s.pending
    requires u.pending == s.pending[g.id := |s.gens|] && u.actors == s.actors
    requires s.permits > 0 && u.permits == s.permits - 1 && u.killQueue == s.killQueue
    requires UsesSlot(g) && !IsInQueue(g)
    ensures Maps(u) && Counts(u)
  {
    CountAppend(UsesSlot, s.gens, g);
    CountAppend(IsInQueue, s.gens, g);
  }

  lemma BeginKeeps(s: Sys, id: Id)
    requires Inv(s)
    ensures Inv(DoBegin(s, id))
  {
    NewGenOk(id);
    hide GenInv, Maps, Counts;
    var u := DoBegin(s, id);
    if u != s {
      BeginMapsAndCounts(s, u, NewGen(id));
      AppendAll(GenInv, s, u, NewGen(id));
    }
  }

  lemma EnqueueCounts(s: Sys, t: Ticket, u: Sys)
    requires Counts(s) && t < |s.gens| == |u.gens| && u.gens == s.gens[t := u.gens[t]]
    requires u.permits == s.permits && u.killQueue == s.killQueue + [t]
    requires UsesSlot(u.gens[t]) == UsesSlot(s.gens[t])
    requires IsInQueue(u.gens[t]) && !IsInQueue(s.gens[t])
    ensures Counts(u)
  {
    PutCounts(s, t, u.gens[t]);
  }

  lemma DequeueCounts(s: Sys, t: Ticket, u: Sys)
    requires Counts(s) && t < |s.gens| == |u.gens| && u.gens == s.gens[t := u.gens[t]]
    requires s.killQueue != [] && s.killQueue[0] == t
    requires u.permits == s.permits && u.killQueue == s.killQueue[1..]
    requires UsesSlot(u.gens[t]) == UsesSlot(s.gens[t]) && !IsInQueue(u.gens[t])
    ensures Counts(u)
  {
    PutCounts(s, t, u.gens[t]);
  }

  lemma EnqueueKeeps(s: Sys, t: Ticket, h: Gen)
    requires Inv(s) && t < |s.gens| && s.gens[t].kill.Claimed?
    requires h == s.gens[t].(kill := InQueue, starter := h.starter, callback := h.callback)
    requires GenInv(h, Current(s, t))
    ensures Inv(s.(gens := s.gens[t := h], killQueue := s.killQueue + [t]))
  {
    hide GenInv;
    var u := s.(gens := s.gens[t := h], killQueue := s.killQueue + [t]);
    PutAll(GenInv, s, t, u);
    PutMaps(s, t, u);
    EnqueueCounts(s, t, u);
    hide Maps, Counts;
  }

  lemma StarterKeeps(s: Sys, t: Ticket, choice: bool)
    requires Inv(s) && t < |s.gens|
    ensures Inv(StarterStep(s, t, choice))
  {
    hide GenInv, StarterGen;
    var g := s.gens[t];
    assert GenInv(g, Current(s, t));
    if g.starter.Enqueueing? {
      QueuedKeeps(g, Current(s, t));
      RoomForTheKill(s, t);
      EnqueueKeeps(s, t, g.(kill := InQueue, starter := Raised));
    } else {
      var admitted := s.accepting && g.id !in s.cancelledIds && g.id !in s.actors;
      StarterTurnKeeps(g, Current(s, t), admitted, choice);
      HarmlessKeeps(s, t, StarterGen(g, Current(s, t), admitted, choice));
    }
  }

  lemma CallbackKeeps(s: Sys, t: Ticket)
    requires Inv(s) && t < |s.gens|
    ensures Inv(CallbackStep(s, t))
  {
    hide GenInv, CallbackGen;
    var g := s.gens[t];
    assert GenInv(g, Current(s, t));
    if g.callback.CallbackEnqueueing? {
      QueuedKeeps(g, Current(s, t));
      RoomForTheKill(s, t);
      EnqueueKeeps(s, t, g.(kill := InQueue, callback := CallbackDone));
    } else {
      CallbackTurnKeeps(g, Current(s, t));
      HarmlessKeeps(s, t, Stay(CallbackGen(g, Current(s, t))));
    }
  }

  lemma KillKeeps(s: Sys, t: Ticket, ok: bool)
    requires Inv(s) && t < |s.gens|
    ensures Inv(KillStep(s, t, ok))
  {
    hide GenInv, Maps, Counts;
    var u := KillStep(s, t, ok);
    var g := s.gens[t];
    assert GenInv(g, Current(s, t));
    if g.kill.Killing? && ok {
      KilledKeeps(g, Current(s, t));
      HarmlessKeeps(s, t, Stay(BeginRelease(g).(kill := Killed)));
    } else if u != s {
      KillTakenKeeps(g, Current(s, t));
      PutAll(GenInv, s, t, u);
      PutMaps(s, t, u);
      DequeueCounts(s, t, u);
    }
  }

  lemma ReleasedKeeps(g: Gen, current: bool)
    requires GenInv(g, current) && g.releasing
    ensures !g.held
    ensures GenInv(g.(releasing := false, releases := g.releases + 1), current)
  {
  }

  lemma SemaphoreKeeps(s: Sys, t: Ticket)
    requires Inv(s) && t < |s.gens|
    ensures Inv(SemaphoreStep(s, t))
  {
    hide GenInv;
    var u := SemaphoreStep(s, t);
    assert GenInv(s.gens[t], Current(s, t));
    if s.gens[t].releasing {
      ReleasedKeeps(s.gens[t], Current(s, t));
      PutAll(GenInv, s, t, u);
      PutMaps(s, t, u);
      PutCounts(s, t, u.gens[t]);
      hide Maps;
    }
  }

  /** Steps that touch neither a generation nor the pending map. */
  lemma FrameKeeps(s: Sys, u: Sys)
    requires Inv(s) && u.gens == s.gens && u.pending == s.pending
    requires u.permits == s.permits && u.killQueue == s.killQueue
    requires u.actors.Keys <= s.actors.Keys && forall id <- u.actors :: u.actors[id] == s.actors[id]
    ensures Inv(u)
  {
    assert forall t: Ticket :: Current(u, t) == Current(s, t);
  }

  lemma StepKeeps(s: Sys, a: Action)
    requires Inv(s)
    ensures Inv(Step(s, a))
  {
    hide GenInv, StarterStep, CallbackStep, KillStep, SemaphoreStep, CreationGen;
    match a
    case Begin(id) => BeginKeeps(s, id);
    case StarterTurn(t, choice) => if t < |s.gens| { StarterKeeps(s, t, choice); }
    case CallbackTurn(t) => if t < |s.gens| { CallbackKeeps(s, t); }
    case CreationTurn(t, ok) =>
      if t < |s.gens| {
        assert GenInv(s.gens[t], Current(s, t));
        CreationTurnKeeps(s.gens[t], Current(s, t), ok);
        HarmlessKeeps(s, t, Stay(CreationGen(s.gens[t], ok)));
      }
    case KillTurn(t, ok) => if t < |s.gens| { KillKeeps(s, t, ok); }
    case SemaphoreRelease(t) => if t < |s.gens| { SemaphoreKeeps(s, t); }
    case RequestCancel(id) =>
      var u := s.(cancelledIds := s.cancelledIds + {id});
      FrameKeeps(s, u);
      InvalidateKeeps(u, id);
    case ClearCancel(id) => FrameKeeps(s, Step(s, a));
    case Shutdown =>
      FrameKeeps(s, s.(accepting := false));
      InvalidateTheseKeeps(s.(accepting := false), s.pending.Keys);
    case ForgetInstance(id) => FrameKeeps(s, Step(s, a));
  }

  lemma {:induction false} RunKeeps(s: Sys, actions: seq<Action>)
    requires Inv(s)
    ensures Inv(Run(s, actions))
    decreases |actions|
  {
    if actions != [] {
      StepKeeps(s, actions[0]);
      RunKeeps(Step(s, actions[0]), actions[1..]);
    }
  }

  // ----- what every interleaving keeps --------------------------------------

  lemma InitInv()
    ensures Inv(INIT)
  {
  }

  lemma Reachable(actions: seq<Action>, t: Ticket)
    requires t < |Run(INIT, actions).gens|
    ensures Inv(Run(INIT, actions))
    ensures GenInv(Run(INIT, actions).gens[t], Current(Run(INIT, actions), t))
  {
    InitInv();
    RunKeeps(INIT, actions);
  }

  /** The error "Stale actor cleanup admission invariant was violated" cannot be
      raised: no thread ever reaches it, and one step before it the queue has room. */
  lemma AdmissionErrorUnreachable(actions: seq<Action>, t: Ticket)
    requires t < |Run(INIT, actions).gens|
    ensures var s := Run(INIT, actions); var g := s.gens[t];
            && !g.starter.Violated? && !g.callback.CallbackViolated?
            && (g.starter.Enqueueing? || g.callback.CallbackEnqueueing? ==>
                  |s.killQueue| < KILL_QUEUE_SIZE)
  {
    Reachable(actions, t);
    if Run(INIT, actions).gens[t].kill.Claimed? {
      RoomForTheKill(Run(INIT, actions), t);
    }
  }

  /** Slots: every claimed, unfinished kill holds one; a generation gives its slot back
      at most once; together they never exceed the capacity. */
  lemma SlotsAreConserved(actions: seq<Action>, t: Ticket)
    requires t < |Run(INIT, actions).gens|
    ensures var s := Run(INIT, actions); var g := s.gens[t];
            && s.permits + Count(UsesSlot, s.gens) == CLEANUP_SLOTS
            && (g.claimed && !g.kill.Killed? ==> g.held)
            && g.releases <= 1 && (g.held ==> g.releases == 0)
  {
    Reachable(actions, t);
  }

  /** An actor is registered at most once or claimed for the late kill at most once,
      never both; and a start cancelled before delivery is never delivered. */
  lemma ActorHasOneFate(actions: seq<Action>, t: Ticket)
    requires t < |Run(INIT, actions).gens|
    ensures var g := Run(INIT, actions).gens[t];
            && g.registrations + g.claims <= 1
            && (g.registrations + g.claims == 1 ==> g.future.Created?)
            && (g.cancelled ==> g.registrations == 0)
  {
    Reachable(actions, t);
  }

  predicate Finished(g: Gen) {
    && (g.starter.Started? || g.starter.Raised?)
    && !g.future.Queued? && !g.future.Running?
    && (g.callback.Unregistered? || g.callback.CallbackDone?)
    && (g.kill.NoKill? || g.kill.Killed?)
    && !g.releasing
  }

  /** No thread has a turn left: starters returned, creation calls and callbacks are
      over, kills confirmed and semaphore releases done. */
  ghost predicate Quiescent(s: Sys) {
    forall t: Ticket :: t < |s.gens| ==> Finished(s.gens[t])
  }

  lemma NoCurrentNoPending(s: Sys)
    requires Maps(s)
    ensures (forall t: Ticket :: !Current(s, t)) ==> s.pending == map[]
  {
    if s.pending != map[] {
      var id :| id in s.pending;
      assert Current(s, s.pending[id]);
    }
  }

  /** At quiescence every created actor was registered exactly once or killed after
      exactly one claim, nothing is pending, and every permit is back. */
  lemma QuiescenceLosesNothing(actions: seq<Action>)
    requires Quiescent(Run(INIT, actions))
    ensures var s := Run(INIT, actions);
            && s.permits == CLEANUP_SLOTS && s.killQueue == [] && s.pending == map[]
            && forall t: Ticket :: t < |s.gens| && s.gens[t].future.Created? ==>
                 && s.gens[t].registrations + s.gens[t].claims == 1
                 && (s.gens[t].claims == 1 ==> s.gens[t].kill.Killed?)
  {
    var s := Run(INIT, actions);
    InitInv();
    RunKeeps(INIT, actions);
    forall t: Ticket | t < |s.gens|
      ensures !UsesSlot(s.gens[t]) && !IsInQueue(s.gens[t]) && !Current(s, t)
      ensures s.gens[t].future.Created? ==>
                && s.gens[t].registrations + s.gens[t].claims == 1
                && (s.gens[t].claims == 1 ==> s.gens[t].kill.Killed?)
    {
      assert GenInv(s.gens[t], Current(s, t));
    }
    CountNone(UsesSlot, s.gens);
    CountNone(IsInQueue, s.gens);
    NoCurrentNoPending(s);
  }

  /** No lost wake-up: a starter blocked on its event although its start was cancelled
      or its creation is being reported can always go on without the timeout. */
  lemma NoLostWakeUp(actions: seq<Action>, t: Ticket)
    requires t < |Run(INIT, actions).gens| && Run(INIT, actions).gens[t].starter.Waiting?
    requires var s := Run(INIT, actions);
             !Current(s, t) || (!s.gens[t].callback.Unregistered? && !s.gens[t].callback.Armed?)
    ensures var u := Run(INIT, actions + [StarterTurn(t, false)]);
            t < |u.gens| && u.gens[t].starter.Awake?
  {
    Reachable(actions, t);
    RunSnoc(INIT, actions, StarterTurn(t, false));
  }

  lemma {:induction false} RunSnoc(s: Sys, actions: seq<Action>, a: Action)
    ensures Run(s, actions + [a]) == Step(Run(s, actions), a)
    decreases |actions|
  {
    if actions != [] {
      assert (actions + [a])[1..] == actions[1..] + [a];
      RunSnoc(Step(s, actions[0]), actions[1..], a);
    }
  }

  // ----- the manager --------------------------------------------------------

  /** The start is the pending one of its instance, and nothing speaks against it. */
  predicate Admissible(s: Sys, t: Ticket)
    requires t < |s.gens|
  {
    var id := s.gens[t].id;
    id in s.pending && s.pending[id] == t && s.accepting && id !in s.cancelledIds && id !in s.actors
  }

  /** The turn of a thread that decides is its decision. */
  lemma DecisionIs(s: Sys, t: Ticket, choice: bool)
    requires t < |s.gens| && IsDeciding(s.gens[t].starter)
    ensures var g := s.gens[t];
            Step(s, StarterTurn(t, choice))
            == Apply(s, t, DecidingGen(g, Current(s, t), s.accepting && g.id !in s.cancelledIds && g.id !in s.actors,
                                       choice))
  {
    hide ExpiringGen, SubmittingGen, PublishingGen, WaitingGen, DecidingGen, Apply;
  }

  lemma DeliveryIs(g: Gen, current: bool, admitted: bool, expired: bool)
    requires g.starter.Deciding?
    ensures DecidingGen(g, current, admitted, expired)
            == if current && admitted && !expired
               then Turn(g.(starter := Accepted, delivered := true, registrations := g.registrations + 1), true, true)
               else Turn(g.(starter := Claiming), current, false)
  {
  }

  /** The fields of `LlmInstanceManager` that a start touches, with the process-wide
      slot semaphore and late-kill queue.  Each method is one locked region or one
      operation on a shared primitive. */
  class ActorStartManager {
    var generations: seq<Gen>
    var pendingStartGenerations: map<Id, Ticket>
    var instanceActors: map<Id, Ticket>
    var cancelledStartIds: set<Id>
    var acceptingLaunches: bool
    var cleanupPermits: nat
    var lateKills: seq<Ticket>

    ghost function State(): Sys
      reads this
    {
      Sys(generations, pendingStartGenerations, instanceActors, cancelledStartIds,
          acceptingLaunches, cleanupPermits, lateKills)
    }

    constructor ()
      ensures State() == INIT && Inv(State())
    {
      generations, pendingStartGenerations, instanceActors := [], map[], map[];
      cancelledStartIds, acceptingLaunches := {}, true;
      cleanupPermits, lateKills := CLEANUP_SLOTS, [];
      new;
      InitInv();
    }

    /** First locked region of `start_llm_instance`. */
    method BeginStart(id: Id) returns (ticket: Option<Ticket>)
      modifies this
      ensures State() == Step(old(State()), Begin(id))
      ensures ticket.Some? <==>
                old(acceptingLaunches && id !in cancelledStartIds && id !in instanceActors
                    && id !in pendingStartGenerations && cleanupPermits > 0)
      ensures ticket.Some? ==> Current(State(), ticket.value) && generations[ticket.value].held
    {
      if !acceptingLaunches || id in cancelledStartIds { return None; }
      if id in instanceActors || id in pendingStartGenerations { return None; }
      if cleanupPermits == 0 { return None; }
      cleanupPermits := cleanupPermits - 1;
      ticket := Some(|generations|);
      generations := generations + [NewGen(id)];
      pendingStartGenerations := pendingStartGenerations[id := ticket.value];
    }

    /** `_invalidate_pending_start_locked`. */
    method InvalidatePendingStart(id: Id) returns (popped: bool)
      requires Indexed(State())
      modifies this`generations, this`pendingStartGenerations
      ensures State() == Invalidate(old(State()), id)
      ensures popped <==> id in old(pendingStartGenerations)
    {
      if id !in pendingStartGenerations { return false; }
      var t := pendingStartGenerations[id];
      pendingStartGenerations := pendingStartGenerations - {id};
      var g := generations[t].(cancelled := true, woken := true);
      if !g.published {
        if !g.submitted { g := BeginRelease(g); }
      } else if Cancellable(g.future) {
        g := BeginRelease(g.(future := Cancelled));
      }
      generations := generations[t := g];
      return true;
    }

    method RequestStartCancellation(id: Id) returns (creating: bool)
      requires Indexed(State())
      modifies this`generations, this`pendingStartGenerations, this`cancelledStartIds
      ensures State() == Step(old(State()), RequestCancel(id))
      ensures id in cancelledStartIds && id !in pendingStartGenerations
    {
      cancelledStartIds := cancelledStartIds + {id};
      creating := InvalidatePendingStart(id);
    }

    /** The locked decision of `start_llm_instance` about a finished creation. */
    method DecideDelivery(t: Ticket, expired: bool) returns (accepted: bool)
      requires t < |generations| && generations[t].starter.Deciding?
      modifies this`generations, this`pendingStartGenerations, this`instanceActors
      ensures State() == Step(old(State()), StarterTurn(t, expired))
      ensures accepted <==> Admissible(old(State()), t) && !expired
      ensures |generations| == |old(generations)|
      ensures generations[t].starter == (if accepted then Accepted else Claiming)
      ensures accepted ==> generations[t].id in instanceActors && instanceActors[generations[t].id] == t
    {
      var g := generations[t];
      var id := g.id;
      var isCurrent := id in pendingStartGenerations && pendingStartGenerations[id] == t;
      accepted := isCurrent && acceptingLaunches && id !in cancelledStartIds && id !in instanceActors && !expired;
      assert accepted <==> Admissible(State(), t) && !expired;
      hide Admissible;
      DeliveryIs(g, isCurrent, acceptingLaunches && id !in cancelledStartIds && id !in instanceActors, expired);
      DecisionIs(State(), t, expired);
      hide DecidingGen, Step;
      if accepted {
        Commit(t, g.(starter := Accepted, delivered := true, registrations := g.registrations + 1), true, true);
      } else {
        Commit(t, g.(starter := Claiming), isCurrent, false);
      }
    }

    /** The end of a locked region: the pending entry goes and the actor is registered, as
        decided. */
    method Commit(t: Ticket, g: Gen, withdraws: bool, registers: bool)
      requires t < |generations|
      modifies this`generations, this`pendingStartGenerations, this`instanceActors
      ensures State() == Apply(old(State()), t, Turn(g, withdraws, registers))
      ensures |generations| == |old(generations)| && generations[t] == g
      ensures registers ==> g.id in instanceActors && instanceActors[g.id] == t
    {
      if withdraws { pendingStartGenerations := pendingStartGenerations - {g.id}; }
      if registers { instanceActors := instanceActors[g.id := t]; }
      generations := generations[t := g];
    }

    /** Locked half of `_schedule_late_actor_kill`, for the starting thread. */
    method ClaimLateKill(t: Ticket) returns (claimed: bool)
      requires t < |generations| && generations[t].starter.Claiming?
      modifies this`generations
      ensures State() == Step(old(State()), StarterTurn(t, false))
      ensures |generations| == |old(generations)|
      ensures claimed <==> !old(generations)[t].delivered && !old(generations)[t].claimed
      ensures claimed <==> generations[t].starter.Enqueueing?
    {
      var g := generations[t];
      DecisionIs(State(), t, false);
      hide Step;
      claimed := !g.delivered && !g.claimed;
      generations := generations[t := if claimed then Claim(g).(starter := Enqueueing)
                                      else g.(starter := Raised)];
    }

    /** The submission that follows a claim.  The branch that raises the admission
        error is dead. */
    method SubmitLateKill(t: Ticket)
      requires Inv(State()) && t < |generations| && generations[t].starter.Enqueueing?
      modifies this`generations, this`lateKills
      ensures State() == Step(old(State()), StarterTurn(t, false))
      ensures lateKills == old(lateKills) + [t]
      ensures generations == old(generations)[t := old(generations[t]).(kill := InQueue, starter := Raised)]
    {
      ClaimedNow(State(), t);
      RoomForTheKill(State(), t);
      if |lateKills| >= KILL_QUEUE_SIZE {
        assert false;
      }
      lateKills := lateKills + [t];
      generations := generations[t := generations[t].(kill := InQueue, starter := Raised)];
    }

    /** The loop of `begin_shutdown`: one pending start after another. */
    method InvalidateAllPending()
      requires Maps(State())
      modifies this`generations, this`pendingStartGenerations
      ensures State() == InvalidateThese(old(State()), old(pendingStartGenerations.Keys))
    {
      hide InvalidateThese, Invalidate, Maps;
      ghost var s := State();
      ghost var done := {};
      var ids := pendingStartGenerations.Keys;
      InvalidateNone(s);
      while ids != {}
        invariant ids + done == s.pending.Keys && ids !! done
        invariant State() == InvalidateThese(s, done)
        decreases |ids|
      {
        var id :| id in ids;
        InvalidateOneMore(s, done, id);
        var popped := InvalidatePendingStart(id);
        ids, done := ids - {id}, done + {id};
      }
      assert done == s.pending.Keys;
    }

    method BeginShutdown()
      requires Inv(State())
      modifies this`acceptingLaunches, this`generations, this`pendingStartGenerations
      ensures State() == Step(old(State()), Shutdown)
      ensures pendingStartGenerations == map[] && !acceptingLaunches
    {
      acceptingLaunches := false;
      InvalidateAllPending();
    }
  }

  lemma ClaimedNow(s: Sys, t: Ticket)
    requires Inv(s) && t < |s.gens| && s.gens[t].starter.Enqueueing?
    ensures s.gens[t].kill.Claimed?
  {
    assert GenInv(s.gens[t], Current(s, t));
  }

  lemma InvalidateNone(s: Sys)
    ensures InvalidateThese(s, {}) == s
  {
    assert InvalidateThese(s, {}).gens == s.gens;
  }
}
