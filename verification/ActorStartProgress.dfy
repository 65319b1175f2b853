/** Every actor start comes to an end: a measure that each turn of each thread of
    `ActorStart` lowers, and a turn for somebody as long as anybody is not finished.
    Deadlines need not pass; only Ray's calls have to be answered. */
module ActorStartProgress {
  import opened Counting
  import opened ActorStart

  function StarterLeft(p: Starter): nat {
    match p
    case Reserved => 11
    case Submitting => 10
    case Submitted => 9
    case Published => 8
    case Watching => 7
    case Superseded => 6
    case Waiting => 5
    case Expired => 4
    case Awake => 4
    case ExpiredLate => 3
    case Deciding => 3
    case SubmitRefused => 2
    case CreationFailed => 2
    case Claiming => 2
    case Releasing => 1
    case Enqueueing => 1
    case Accepted => 1
    case _ => 0
  }

  function CallbackLeft(c: Callback): nat {
    match c
    case Unregistered => 6
    case Armed => 5
    case Inspecting => 4
    case Judging => 3
    case CallbackClaiming => 2
    case CallbackReleasing => 1
    case CallbackEnqueueing => 1
    case _ => 0
  }

  function FutureLeft(f: Future): nat {
    match f
    case NoFuture => 3
    case Queued => 2
    case Running => 1
    case _ => 0
  }

  function KillLeft(k: Kill): nat {
    match k
    case NoKill => 4
    case Claimed => 3
    case InQueue => 2
    case Killing => 1
    case Killed => 0
  }

  /** How far a generation is from its end; a new one is 26 away. */
  function Left(g: Gen): nat {
    StarterLeft(g.starter) + CallbackLeft(g.callback) + FutureLeft(g.future) + KillLeft(g.kill) + SlotLeft(g)
  }

  function SlotLeft(g: Gen): nat {
    if g.held then 2 else if g.releasing then 1 else 0
  }

  function Total(gens: seq<Gen>): nat {
    if gens == [] then 0 else Left(gens[0]) + Total(gens[1..])
  }

  lemma {:induction false} TotalConcat(a: seq<Gen>, b: seq<Gen>)
    ensures Total(a + b) == Total(a) + Total(b)
  {
    if a == [] {
      assert a + b == b;
    } else {
      assert (a + b)[1..] == a[1..] + b;
      TotalConcat(a[1..], b);
    }
  }

  lemma TotalUpdate(gens: seq<Gen>, t: Ticket, g: Gen)
    requires t < |gens|
    ensures Total(gens[t := g]) == Total(gens) - Left(gens[t]) + Left(g)
  {
    var x, y := [gens[t]] + gens[t + 1..], [g] + gens[t + 1..];
    assert gens == gens[..t] + x && gens[t := g] == gens[..t] + y;
    assert x[1..] == y[1..] == gens[t + 1..];
    TotalConcat(gens[..t], x);
    TotalConcat(gens[..t], y);
    hide Left;
  }

  lemma {:induction false} TotalBelow(a: seq<Gen>, b: seq<Gen>)
    requires |a| == |b| && forall i :: 0 <= i < |a| ==> Left(a[i]) <= Left(b[i])
    ensures Total(a) <= Total(b)
  {
    hide Left;
    if a != [] { TotalBelow(a[1..], b[1..]); }
  }

  lemma InvalidatedLeft(g: Gen)
    ensures Left(Invalidated(g)) <= Left(g)
  {
    InvalidatedParts(g);
    hide Invalidated, StarterLeft, CallbackLeft, KillLeft;
  }

  /** What makes every turn a way forward. */
  predicate MovesOn(g: Gen) {
    && (g.claimed <==> !g.kill.NoKill?)
    && (g.starter.Submitting? ==> g.future.NoFuture?)
    && (g.starter.Published? ==> g.callback.Unregistered?)
    && (g.starter.Enqueueing? || g.callback.CallbackEnqueueing? ==> g.kill.Claimed?)
    && (g.releasing ==> !g.held)
  }

  lemma InvMovesOn(g: Gen, current: bool)
    requires GenInv(g, current)
    ensures MovesOn(g)
  {
  }

  lemma ReleaseLeft(g: Gen)
    ensures Left(BeginRelease(g)) <= Left(g)
    ensures BeginRelease(g).starter == g.starter && BeginRelease(g).callback == g.callback
    ensures BeginRelease(g).kill == g.kill && BeginRelease(g).future == g.future
  {
    hide StarterLeft, CallbackLeft, FutureLeft, KillLeft;
  }

  /** The starting thread moves from `p` to `q` and nothing else falls back. */
  lemma StarterDrops(g: Gen, h: Gen)
    requires StarterLeft(h.starter) < StarterLeft(g.starter)
    requires CallbackLeft(h.callback) <= CallbackLeft(g.callback) && FutureLeft(h.future) <= FutureLeft(g.future)
    requires KillLeft(h.kill) <= KillLeft(g.kill) && SlotLeft(h) <= SlotLeft(g)
    ensures Left(h) < Left(g)
  {
  }

  lemma InvalidatedParts(g: Gen)
    ensures var h := Invalidated(g);
            && SlotLeft(h) <= SlotLeft(g) && h.callback == g.callback && h.kill == g.kill && h.starter == g.starter
            && FutureLeft(h.future) <= FutureLeft(g.future)
  {
  }

  lemma ReleaseParts(g: Gen)
    ensures SlotLeft(BeginRelease(g)) <= SlotLeft(g)
  {
  }

  lemma ExpiringLowers(g: Gen, current: bool, choice: bool)
    requires IsExpiring(g.starter)
    ensures Left(ExpiringGen(g, current, choice).gen) < Left(g)
  {
    hide Left;
    InvalidatedParts(g);
    hide Invalidated, CallbackLeft, FutureLeft, KillLeft;
    if g.starter.Reserved? {
      StarterDrops(g, g.(starter := Raised));
      StarterDrops(g, Invalidated(g).(starter := Raised));
      StarterDrops(g, g.(submitted := true, starter := Submitting));
    } else {
      StarterDrops(g, Invalidated(g).(starter := ExpiredLate));
      StarterDrops(g, g.(starter := ExpiredLate));
    }
  }

  lemma SubmittingLowers(g: Gen, current: bool, choice: bool)
    requires IsSubmitting(g.starter) && MovesOn(g)
    ensures Left(SubmittingGen(g, current, choice).gen) < Left(g)
  {
    hide Left;
    ReleaseLeft(g);
    ReleaseParts(g);
    hide BeginRelease, CallbackLeft, KillLeft;
    if g.starter.Submitting? {
      StarterDrops(g, g.(future := Queued, starter := Submitted));
      StarterDrops(g, g.(starter := SubmitRefused));
    } else if g.starter.SubmitRefused? {
      StarterDrops(g, g.(submitted := false, starter := Releasing));
    } else {
      StarterDrops(g, BeginRelease(g).(starter := Raised));
    }
  }

  lemma PublishingLowers(g: Gen, current: bool)
    requires IsPublishing(g.starter) && MovesOn(g)
    ensures Left(PublishingGen(g, current).gen) < Left(g)
  {
    hide Left;
    if g.starter.Submitted? || g.starter.Published? {
      assert g.starter.Published? ==> g.callback.Unregistered?;
      hide MovesOn;
      RegisteringLowers(g, current);
    } else {
      hide MovesOn;
      WatchingLowers(g, current);
    }
    hide PublishingGen;
  }

  lemma RegisteringLowers(g: Gen, current: bool)
    requires g.starter.Submitted? || (g.starter.Published? && g.callback.Unregistered?)
    ensures Left(PublishingGen(g, current).gen) < Left(g)
  {
    hide Left, FutureLeft, KillLeft;
    if g.starter.Submitted? {
      StarterDrops(g, g.(published := true, starter := Published));
    } else {
      StarterDrops(g, g.(callback := Armed, starter := Watching));
    }
  }

  lemma WatchingLowers(g: Gen, current: bool)
    requires g.starter.Watching? || g.starter.Superseded?
    ensures Left(PublishingGen(g, current).gen) < Left(g)
  {
    hide Left, CallbackLeft, KillLeft;
    if g.starter.Watching? {
      StarterDrops(g, g.(starter := Waiting));
      StarterDrops(g, g.(starter := Superseded));
    } else {
      StarterDrops(g, g.(future := Cancelled, starter := Waiting));
      StarterDrops(g, g.(future := g.future, starter := Waiting));
    }
  }

  lemma WaitingLowers(g: Gen, choice: bool)
    requires IsWaiting(g.starter)
    ensures WaitingGen(g, choice) == Stay(g) || Left(WaitingGen(g, choice).gen) < Left(g)
  {
    hide Left;
    if g.starter.Waiting? { BlockedLowers(g, choice); } else { AwakeLowers(g, choice); }
    hide WaitingGen;
  }

  lemma BlockedLowers(g: Gen, choice: bool)
    requires g.starter.Waiting?
    ensures WaitingGen(g, choice) == Stay(g) || Left(WaitingGen(g, choice).gen) < Left(g)
  {
    hide Left, CallbackLeft, FutureLeft, KillLeft;
    StarterDrops(g, g.(starter := Expired));
    StarterDrops(g, g.(starter := Awake));
  }

  lemma AwakeLowers(g: Gen, choice: bool)
    requires g.starter.Awake? || g.starter.ExpiredLate?
    ensures Left(WaitingGen(g, choice).gen) < Left(g)
  {
    hide Left, CallbackLeft, FutureLeft, KillLeft;
    StarterDrops(g, g.(starter := Raised));
    if g.starter.Awake? {
      StarterDrops(g, g.(starter := Deciding));
      StarterDrops(g, g.(starter := CreationFailed));
    } else {
      StarterDrops(g, g.(starter := Claiming));
    }
  }

  lemma DecidingLowers(g: Gen, current: bool, admitted: bool, choice: bool)
    requires IsDeciding(g.starter) && MovesOn(g)
    ensures Left(DecidingGen(g, current, admitted, choice).gen) < Left(g)
  {
    hide Left;
    if g.starter.CreationFailed? || g.starter.Deciding? {
      hide MovesOn;
      JudgedLowers(g, current, admitted, choice);
    } else {
      assert g.claimed <==> !g.kill.NoKill?;
      hide MovesOn;
      DisowningLowers(g, current, admitted, choice);
    }
    hide DecidingGen;
  }

  lemma JudgedLowers(g: Gen, current: bool, admitted: bool, choice: bool)
    requires g.starter.CreationFailed? || g.starter.Deciding?
    ensures Left(DecidingGen(g, current, admitted, choice).gen) < Left(g)
  {
    hide Left, CallbackLeft, FutureLeft, KillLeft;
    if g.starter.CreationFailed? {
      StarterDrops(g, g.(starter := Releasing));
    } else {
      StarterDrops(g, g.(starter := Accepted, delivered := true, registrations := g.registrations + 1));
      StarterDrops(g, g.(starter := Claiming));
    }
  }

  lemma DisowningLowers(g: Gen, current: bool, admitted: bool, choice: bool)
    requires (g.starter.Claiming? || g.starter.Accepted?) && (g.claimed <==> !g.kill.NoKill?)
    ensures Left(DecidingGen(g, current, admitted, choice).gen) < Left(g)
  {
    hide Left;
    ReleaseLeft(g);
    ReleaseParts(g);
    hide BeginRelease, CallbackLeft, FutureLeft;
    if g.starter.Accepted? {
      StarterDrops(g, BeginRelease(g).(starter := Started));
    } else {
      StarterDrops(g, g.(starter := Raised));
      if g.kill.NoKill? { StarterDrops(g, Claim(g).(starter := Enqueueing)); }
    }
  }

  lemma StarterTurnLowers(g: Gen, current: bool, admitted: bool, choice: bool)
    requires MovesOn(g)
    ensures var r := StarterGen(g, current, admitted, choice);
            r == Stay(g) || Left(r.gen) < Left(g)
  {
    hide IsExpiring, IsSubmitting, IsPublishing, IsWaiting, IsDeciding, Left, MovesOn,
         ExpiringGen, SubmittingGen, PublishingGen, WaitingGen, DecidingGen;
    if IsExpiring(g.starter) { ExpiringLowers(g, current, choice); }
    else if IsSubmitting(g.starter) { SubmittingLowers(g, current, choice); }
    else if IsPublishing(g.starter) { PublishingLowers(g, current); }
    else if IsWaiting(g.starter) { WaitingLowers(g, choice); }
    else if IsDeciding(g.starter) { DecidingLowers(g, current, admitted, choice); }
  }

  lemma CallbackDrops(g: Gen, h: Gen)
    requires CallbackLeft(h.callback) < CallbackLeft(g.callback)
    requires h.starter == g.starter && h.future == g.future
    requires KillLeft(h.kill) <= KillLeft(g.kill) && SlotLeft(h) <= SlotLeft(g)
    ensures Left(h) < Left(g)
  {
  }

  lemma CallbackTurnLowers(g: Gen, current: bool)
    requires MovesOn(g)
    ensures var h := CallbackGen(g, current); h == g || Left(h) < Left(g)
  {
    assert g.claimed <==> !g.kill.NoKill?;
    hide MovesOn, Left, BeginRelease, Claim;
    if g.callback.Armed? && !IsDone(g.future) {
      assert CallbackGen(g, current) == g;
    } else if g.callback.Armed? || g.callback.Inspecting? || g.callback.CallbackReleasing? {
      ReportingLowers(g, current);
    } else if g.callback.Judging? || g.callback.CallbackClaiming? {
      JudgingLowers(g, current);
    }
  }

  lemma ReportingLowers(g: Gen, current: bool)
    requires g.callback.Armed? || g.callback.Inspecting? || g.callback.CallbackReleasing?
    requires g.callback.Armed? ==> IsDone(g.future)
    ensures Left(CallbackGen(g, current)) < Left(g)
  {
    hide Left;
    ReleaseLeft(g);
    ReleaseParts(g);
    hide BeginRelease, StarterLeft, FutureLeft, KillLeft;
    if g.callback.Armed? {
      CallbackDrops(g, g.(woken := true, callback := Inspecting));
    } else if g.callback.Inspecting? {
      CallbackDrops(g, g.(callback := Judging));
      CallbackDrops(g, g.(callback := CallbackReleasing));
    } else {
      CallbackDrops(g, BeginRelease(g).(callback := CallbackDone));
    }
  }

  lemma JudgingLowers(g: Gen, current: bool)
    requires (g.callback.Judging? || g.callback.CallbackClaiming?) && (g.claimed <==> !g.kill.NoKill?)
    ensures Left(CallbackGen(g, current)) < Left(g)
  {
    hide Left, StarterLeft, FutureLeft;
    if g.callback.Judging? {
      CallbackDrops(g, g.(callback := CallbackDone));
      CallbackDrops(g, g.(callback := CallbackClaiming));
    } else {
      CallbackDrops(g, g.(callback := CallbackDone));
      if g.kill.NoKill? { CallbackDrops(g, Claim(g).(callback := CallbackEnqueueing)); }
    }
  }

  /** A thread's turn. */
  predicate IsTurn(a: Action) {
    a.StarterTurn? || a.CallbackTurn? || a.CreationTurn? || a.KillTurn? || a.SemaphoreRelease?
  }

  lemma PutLowers(s: Sys, t: Ticket, g: Gen)
    requires t < |s.gens| && Left(g) < Left(s.gens[t])
    ensures Total(s.gens[t := g]) < Total(s.gens)
  {
    TotalUpdate(s.gens, t, g);
    hide Left, Total;
  }

  lemma ApplyLowers(s: Sys, t: Ticket, r: Turn)
    requires t < |s.gens| && (r == Stay(s.gens[t]) || Left(r.gen) < Left(s.gens[t]))
    ensures var u := Apply(s, t, r); |u.gens| == |s.gens| && (u == s || Total(u.gens) < Total(s.gens))
  {
    hide Left, Total;
    if r == Stay(s.gens[t]) {
      assert s.gens[t := s.gens[t]] == s.gens;
    } else {
      PutLowers(s, t, r.gen);
    }
  }

  lemma EnqueueLowers(s: Sys, t: Ticket, queued: Gen, refused: Gen)
    requires t < |s.gens| && Left(queued) < Left(s.gens[t]) && Left(refused) < Left(s.gens[t])
    ensures var u := Enqueue(s, t, queued, refused); |u.gens| == |s.gens| && Total(u.gens) < Total(s.gens)
  {
    PutLowers(s, t, queued);
    PutLowers(s, t, refused);
    hide Left, Total;
  }

  lemma StarterStepLowers(s: Sys, t: Ticket, choice: bool)
    requires t < |s.gens| && MovesOn(s.gens[t])
    ensures var u := StarterStep(s, t, choice);
            |u.gens| == |s.gens| && (u == s || Total(u.gens) < Total(s.gens))
  {
    var g := s.gens[t];
    if g.starter.Enqueueing? {
      EnqueueLowers(s, t, g.(kill := InQueue, starter := Raised), g.(claimed := false, starter := Violated));
    } else {
      var admitted := s.accepting && g.id !in s.cancelledIds && g.id !in s.actors;
      StarterTurnLowers(g, Current(s, t), admitted, choice);
      hide Left, StarterGen, MovesOn;
      ApplyLowers(s, t, StarterGen(g, Current(s, t), admitted, choice));
    }
    hide StarterGen, Total, Enqueue, Apply, Current;
  }

  lemma CallbackStepLowers(s: Sys, t: Ticket)
    requires t < |s.gens| && MovesOn(s.gens[t])
    ensures var u := CallbackStep(s, t); |u.gens| == |s.gens| && (u == s || Total(u.gens) < Total(s.gens))
  {
    var g := s.gens[t];
    if g.callback.CallbackEnqueueing? {
      EnqueueLowers(s, t, g.(kill := InQueue, callback := CallbackDone),
                    g.(claimed := false, callback := CallbackViolated));
    } else {
      CallbackTurnLowers(g, Current(s, t));
      hide Left, CallbackGen, MovesOn;
      ApplyLowers(s, t, Stay(CallbackGen(g, Current(s, t))));
    }
    hide CallbackGen, Total, Enqueue, Apply, Current;
  }

  lemma CreationStepLowers(s: Sys, t: Ticket, ok: bool)
    requires t < |s.gens|
    ensures var u := Step(s, CreationTurn(t, ok));
            |u.gens| == |s.gens| && (u == s || Total(u.gens) < Total(s.gens))
  {
    CreationLowers(s.gens[t], ok);
    hide Left, CreationGen;
    ApplyLowers(s, t, Stay(CreationGen(s.gens[t], ok)));
    hide Total, Apply;
  }

  lemma CreationLowers(g: Gen, ok: bool)
    ensures CreationGen(g, ok) == g || Left(CreationGen(g, ok)) < Left(g)
  {
    if g.future.Queued? { FutureDrops(g, Running); }
    if g.future.Running? {
      FutureDrops(g, Created);
      FutureDrops(g, Future.Failed);
    }
    hide Left;
  }

  lemma FutureDrops(g: Gen, f: Future)
    requires FutureLeft(f) < FutureLeft(g.future)
    ensures Left(g.(future := f)) < Left(g)
  {
    hide StarterLeft, CallbackLeft, KillLeft, FutureLeft;
  }

  lemma KillStepLowers(s: Sys, t: Ticket, ok: bool)
    requires t < |s.gens|
    ensures var u := KillStep(s, t, ok); |u.gens| == |s.gens| && (u == s || Total(u.gens) < Total(s.gens))
  {
    var g := s.gens[t];
    hide Left, Total;
    if g.kill.InQueue? {
      KillDrops(g, Killing);
      PutLowers(s, t, g.(kill := Killing));
    } else if g.kill.Killing? {
      ReleaseLeft(g);
      hide BeginRelease;
      KillDrops(BeginRelease(g), Killed);
      hide Apply;
      ApplyLowers(s, t, Stay(BeginRelease(g).(kill := Killed)));
    }
  }

  lemma KillDrops(g: Gen, k: Kill)
    requires KillLeft(k) < KillLeft(g.kill)
    ensures Left(g.(kill := k)) < Left(g)
  {
    hide StarterLeft, CallbackLeft, KillLeft, FutureLeft;
  }

  lemma SemaphoreStepLowers(s: Sys, t: Ticket)
    requires t < |s.gens| && MovesOn(s.gens[t])
    ensures var u := SemaphoreStep(s, t); |u.gens| == |s.gens| && (u == s || Total(u.gens) < Total(s.gens))
  {
    var g := s.gens[t];
    if g.releasing { PutLowers(s, t, g.(releasing := false, releases := g.releases + 1)); }
    hide Total;
  }

  /** A turn that does anything brings its generation nearer to its end. */
  lemma TurnLowers(s: Sys, a: Action)
    requires Inv(s) && IsTurn(a)
    ensures |Step(s, a).gens| == |s.gens| && (Step(s, a) == s || Total(Step(s, a).gens) < Total(s.gens))
  {
    if a.t < |s.gens| {
      assert GenInv(s.gens[a.t], Current(s, a.t));
      InvMovesOn(s.gens[a.t], Current(s, a.t));
      match a
      case StarterTurn(t, choice) => StarterStepLowers(s, t, choice);
      case CallbackTurn(t) => CallbackStepLowers(s, t);
      case CreationTurn(t, ok) => CreationStepLowers(s, t, ok);
      case KillTurn(t, ok) => KillStepLowers(s, t, ok);
      case SemaphoreRelease(t) => SemaphoreStepLowers(s, t);
      hide GenInv, StarterStep, CallbackStep, KillStep, SemaphoreStep, CreationGen, Total, MovesOn;
    }
  }

  lemma InvalidateLowers(s: Sys, id: Id)
    ensures |Invalidate(s, id).gens| == |s.gens| && Total(Invalidate(s, id).gens) <= Total(s.gens)
  {
    if id in s.pending && s.pending[id] < |s.gens| {
      TotalUpdate(s.gens, s.pending[id], Invalidated(s.gens[s.pending[id]]));
      InvalidatedLeft(s.gens[s.pending[id]]);
    }
    hide Invalidated, Left, Total;
  }

  lemma InvalidateTheseLowers(s: Sys, ids: set<Id>)
    ensures |InvalidateThese(s, ids).gens| == |s.gens| && Total(InvalidateThese(s, ids).gens) <= Total(s.gens)
  {
    hide Invalidated, Left, Total;
    var u := InvalidateThese(s, ids);
    forall i | 0 <= i < |s.gens| ensures Left(u.gens[i]) <= Left(s.gens[i]) { InvalidatedLeft(s.gens[i]); }
    TotalBelow(u.gens, s.gens);
  }

  lemma BeginLowers(s: Sys, id: Id)
    ensures var u := DoBegin(s, id); u == s || (|u.gens| == |s.gens| + 1 && Total(u.gens) == Total(s.gens) + 26)
  {
    TotalConcat(s.gens, [NewGen(id)]);
    assert Left(NewGen(id)) == 26 && Total([NewGen(id)]) == Left(NewGen(id)) + Total([]);
    hide Left, Total, NewGen;
  }

  /** A new start brings 26 more, nothing else any. */
  lemma StepLowers(s: Sys, a: Action)
    requires Inv(s)
    ensures |s.gens| <= |Step(s, a).gens|
    ensures Total(Step(s, a).gens) + (if IsTurn(a) && Step(s, a) != s then 1 else 0)
            <= Total(s.gens) + 26 * (|Step(s, a).gens| - |s.gens|)
  {
    if IsTurn(a) { TurnLowers(s, a); }
    hide Inv, StarterStep, CallbackStep, KillStep, SemaphoreStep, CreationGen, Apply, Total;
    match a
    case Begin(id) => BeginLowers(s, id); hide DoBegin;
    case RequestCancel(id) =>
      InvalidateLowers(s.(cancelledIds := s.cancelledIds + {id}), id);
      hide Invalidate;
    case Shutdown =>
      InvalidateTheseLowers(s.(accepting := false), s.pending.Keys);
      hide InvalidateThese;
    case ClearCancel(_) =>
    case ForgetInstance(_) =>
    case _ => hide Step;
  }

  /** The turns of a run that do anything. */
  function Turns(s: Sys, actions: seq<Action>): nat
    decreases |actions|
  {
    if actions == [] then 0
    else (if IsTurn(actions[0]) && Step(s, actions[0]) != s then 1 else 0) + Turns(Step(s, actions[0]), actions[1..])
  }

  lemma {:induction false} TurnsRunOut(s: Sys, actions: seq<Action>)
    requires Inv(s)
    ensures |s.gens| <= |Run(s, actions).gens|
    ensures Turns(s, actions) + Total(Run(s, actions).gens)
            <= Total(s.gens) + 26 * (|Run(s, actions).gens| - |s.gens|)
    decreases |actions|
  {
    if actions != [] {
      StepKeeps(s, actions[0]);
      StepLowers(s, actions[0]);
      hide Inv, Step, IsTurn, Total;
      TurnsRunOut(Step(s, actions[0]), actions[1..]);
    }
  }

  /** However starts, cancellations and shutdowns interleave, there are at most 26 turns
      to each start. */
  lemma {:induction false} TurnsAreBounded(actions: seq<Action>)
    ensures Turns(INIT, actions) <= 26 * |Run(INIT, actions).gens|
  {
    InitInv();
    TurnsRunOut(INIT, actions);
  }

  /** Ray answers, a creation call returns and a kill is confirmed; the executor takes
      the call and no deadline passes. */
  predicate Answered(s: Sys, a: Action) {
    && IsTurn(a) && (a.CreationTurn? ==> a.ok) && (a.KillTurn? ==> a.ok)
    && (a.StarterTurn? && a.t < |s.gens| ==> (a.choice <==> s.gens[a.t].starter.Submitting?))
  }

  predicate AllAnswered(s: Sys, actions: seq<Action>)
    decreases |actions|
  {
    actions == [] || (Answered(s, actions[0]) && AllAnswered(Step(s, actions[0]), actions[1..]))
  }

  /** A turn of a starting thread that is not waiting does something. */
  lemma StarterMoves(g: Gen, current: bool, admitted: bool, choice: bool)
    requires MovesOn(g)
    requires !g.starter.Started? && !g.starter.Raised? && !g.starter.Violated? && !g.starter.Enqueueing?
    requires g.starter.Waiting? ==> g.woken
    ensures StarterGen(g, current, admitted, choice).gen != g
  {
    if IsExpiring(g.starter) { ExpiringLowers(g, current, choice); }
    else if IsSubmitting(g.starter) { SubmittingLowers(g, current, choice); }
    else if IsPublishing(g.starter) { PublishingLowers(g, current); }
    else if IsWaiting(g.starter) { assert WaitingGen(g, choice).gen.starter != g.starter; }
    else { DecidingLowers(g, current, admitted, choice); }
    hide Left, MovesOn, ExpiringGen, SubmittingGen, PublishingGen, WaitingGen, DecidingGen;
  }

  lemma StarterReady(g: Gen, current: bool)
    requires GenInv(g, current) && !g.future.Queued? && !g.future.Running?
    requires g.callback.Unregistered? || g.callback.CallbackDone?
    ensures !g.starter.Violated? && (g.starter.Waiting? ==> g.woken)
  {
  }

  /** A starting thread whose creation and callback are over goes on without its
      deadline passing. */
  lemma StarterGoesOn(s: Sys, t: Ticket) returns (a: Action)
    requires Inv(s) && t < |s.gens|
    requires !s.gens[t].starter.Started? && !s.gens[t].starter.Raised?
    requires !s.gens[t].future.Queued? && !s.gens[t].future.Running?
    requires s.gens[t].callback.Unregistered? || s.gens[t].callback.CallbackDone?
    ensures Answered(s, a) && Step(s, a) != s
  {
    var g := s.gens[t];
    var choice := g.starter.Submitting?;
    assert GenInv(g, Current(s, t));
    StarterReady(g, Current(s, t));
    InvMovesOn(g, Current(s, t));
    a := StarterTurn(t, choice);
    hide GenInv, Inv, StarterGen, MovesOn, Current, Apply;
    if g.starter.Enqueueing? {
      assert StarterStep(s, t, choice).gens[t].starter != g.starter;
    } else {
      var admitted := s.accepting && g.id !in s.cancelledIds && g.id !in s.actors;
      StarterMoves(g, Current(s, t), admitted, choice);
      ApplyMoves(s, t, StarterGen(g, Current(s, t), admitted, choice));
    }
  }

  lemma ApplyMoves(s: Sys, t: Ticket, r: Turn)
    requires t < |s.gens| && r.gen != s.gens[t]
    ensures Apply(s, t, r) != s
  {
    assert Apply(s, t, r).gens[t] == r.gen;
  }

  lemma CallbackReady(g: Gen, current: bool)
    requires GenInv(g, current) && !g.future.Queued? && !g.future.Running?
    ensures !g.callback.CallbackViolated? && (g.callback.Armed? ==> IsDone(g.future))
  {
  }

  lemma CallbackGoesOn(s: Sys, t: Ticket) returns (a: Action)
    requires Inv(s) && t < |s.gens| && !s.gens[t].future.Queued? && !s.gens[t].future.Running?
    requires !s.gens[t].callback.Unregistered? && !s.gens[t].callback.CallbackDone?
    ensures Answered(s, a) && Step(s, a) != s
  {
    var g := s.gens[t];
    assert GenInv(g, Current(s, t));
    CallbackReady(g, Current(s, t));
    InvMovesOn(g, Current(s, t));
    assert g.claimed <==> !g.kill.NoKill?;
    a := CallbackTurn(t);
    hide GenInv, Inv, CallbackGen, Apply, Current, MovesOn, Left;
    if g.callback.CallbackEnqueueing? {
      assert CallbackStep(s, t).gens[t].callback != g.callback;
    } else {
      if g.callback.Judging? || g.callback.CallbackClaiming? {
        JudgingLowers(g, Current(s, t));
      } else {
        ReportingLowers(g, Current(s, t));
      }
      ApplyMoves(s, t, Stay(CallbackGen(g, Current(s, t))));
    }
  }

  /** The turns outside the two threads. */
  lemma OtherGoesOn(s: Sys, t: Ticket) returns (a: Action)
    requires t < |s.gens|
    requires var g := s.gens[t]; g.releasing || g.future.Queued? || g.future.Running? || g.kill.Killing?
    ensures Answered(s, a) && Step(s, a) != s
  {
    var g := s.gens[t];
    if g.releasing {
      a := SemaphoreRelease(t);
      assert Step(s, a).permits == s.permits + 1;
    } else if g.kill.Killing? {
      a := KillTurn(t, true);
      assert BeginRelease(g).kill == g.kill;
      hide BeginRelease;
      assert Step(s, a).gens[t].kill.Killed?;
    } else {
      a := CreationTurn(t, true);
      assert Step(s, a).gens[t].future != g.future;
    }
  }

  lemma ClaimedIsEnqueueing(g: Gen, current: bool)
    requires GenInv(g, current) && g.kill.Claimed?
    ensures g.starter.Enqueueing? || g.callback.CallbackEnqueueing?
  {
  }

  /** A queued kill waits for the head of the queue. */
  lemma QueueGoesOn(s: Sys, t: Ticket) returns (a: Action)
    requires Inv(s) && t < |s.gens| && s.gens[t].kill.InQueue?
    ensures Answered(s, a) && Step(s, a) != s
  {
    if s.killQueue == [] {
      CountStrict(_ => false, IsInQueue, s.gens, t);
    }
    var head := s.killQueue[0];
    a := KillTurn(head, true);
    assert Step(s, a).gens[head].kill.Killing?;
  }

  /** Whoever is not finished has a turn, or waits for someone who has. */
  lemma SomeoneGoesOn(s: Sys, t: Ticket) returns (a: Action)
    requires Inv(s) && t < |s.gens| && !Finished(s.gens[t])
    ensures Answered(s, a) && Step(s, a) != s
  {
    var g := s.gens[t];
    assert GenInv(g, Current(s, t));
    if g.kill.Claimed? { ClaimedIsEnqueueing(g, Current(s, t)); }
    hide GenInv, Inv, Step, Answered;
    if g.releasing || g.future.Queued? || g.future.Running? || g.kill.Killing? {
      a := OtherGoesOn(s, t);
    } else if g.kill.InQueue? {
      a := QueueGoesOn(s, t);
    } else if !g.callback.Unregistered? && !g.callback.CallbackDone? {
      a := CallbackGoesOn(s, t);
    } else {
      a := StarterGoesOn(s, t);
    }
  }

  /** When every call to Ray is answered, a state in which no turn does anything is
      quiescent: no thread waits for another in a circle. */
  lemma {:induction false} NoTurnLeftIsQuiescent(s: Sys)
    requires Inv(s) && forall a: Action :: Answered(s, a) ==> Step(s, a) == s
    ensures Quiescent(s)
  {
    forall t: Ticket | t < |s.gens| ensures Finished(s.gens[t]) {
      if !Finished(s.gens[t]) {
        var a := SomeoneGoesOn(s, t);
        assert false;
      }
    }
  }

  lemma {:induction false} QuiescenceIsReached(s: Sys) returns (actions: seq<Action>)
    requires Inv(s)
    ensures AllAnswered(s, actions) && |actions| <= Total(s.gens)
    ensures Inv(Run(s, actions)) && Quiescent(Run(s, actions))
    decreases Total(s.gens)
  {
    if t: Ticket :| t < |s.gens| && !Finished(s.gens[t]) {
      var a := SomeoneGoesOn(s, t);
      TurnLowers(s, a);
      StepKeeps(s, a);
      hide Inv, Step, Quiescent, Total;
      var rest := QuiescenceIsReached(Step(s, a));
      actions := [a] + rest;
      assert actions[1..] == rest;
    } else {
      actions := [];
    }
  }

  /** From any point of any run, when Ray answers and without a deadline passing, at most
      26 turns for each start lead to a state in which nothing was lost: every created
      actor was registered once or killed, and every permit is back. */
  lemma {:induction false} EveryStartEnds(actions: seq<Action>) returns (more: seq<Action>)
    ensures AllAnswered(Run(INIT, actions), more) && |more| <= 26 * |Run(INIT, actions).gens|
    ensures var s := Run(INIT, actions + more);
            && Quiescent(s) && s.permits == CLEANUP_SLOTS && s.killQueue == [] && s.pending == map[]
            && forall t: Ticket :: t < |s.gens| && s.gens[t].future.Created? ==>
                 s.gens[t].registrations + s.gens[t].claims == 1
  {
    InitInv();
    RunKeeps(INIT, actions);
    TurnsRunOut(INIT, actions);
    more := QuiescenceIsReached(Run(INIT, actions));
    RunConcat(INIT, actions, more);
    QuiescenceLosesNothing(actions + more);
    hide Inv, Run, Total, Quiescent, AllAnswered;
  }

  lemma {:induction false} RunConcat(s: Sys, a: seq<Action>, b: seq<Action>)
    ensures Run(s, a + b) == Run(Run(s, a), b)
    decreases |a|
  {
    if a == [] {
      assert a + b == b;
    } else {
      assert (a + b)[1..] == a[1..] + b;
      hide Step;
      RunConcat(Step(s, a[0]), a[1..], b);
    }
  }
}
