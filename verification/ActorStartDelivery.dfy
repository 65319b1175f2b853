/** A start that nobody disturbs is delivered, and one that was overtaken never is.
    `ActorStart` says what is lost at worst; this says what is reached. */
module ActorStartDelivery {
  import opened ActorStart
  import opened ActorStartProgress

  // ----- what a turn does to the maps ---------------------------------------

  /** Nothing the maps depend on changes. */
  predicate Same(g: Gen, h: Gen) {
    h.starter == g.starter && h.delivered == g.delivered && h.id == g.id
  }

  lemma ReleaseIsSame(g: Gen)
    ensures Same(g, BeginRelease(g)) && BeginRelease(g).future == g.future
  {
  }

  lemma ReportingIsSame(g: Gen, current: bool)
    requires g.callback.Armed? || g.callback.Inspecting?
    ensures Same(g, CallbackGen(g, current)) && CallbackGen(g, current).future == g.future
  {
  }

  lemma JudgingIsSame(g: Gen, current: bool)
    requires g.callback.CallbackReleasing? || g.callback.Judging?
    ensures Same(g, CallbackGen(g, current)) && CallbackGen(g, current).future == g.future
  {
    ReleaseIsSame(g);
    hide BeginRelease;
  }

  lemma ClaimingIsSame(g: Gen, current: bool)
    requires g.callback.CallbackClaiming?
    ensures Same(g, CallbackGen(g, current)) && CallbackGen(g, current).future == g.future
  {
  }

  /** The callback leaves the starting thread, the future and the delivery alone. */
  lemma CallbackIsSame(g: Gen, current: bool)
    ensures Same(g, CallbackGen(g, current)) && CallbackGen(g, current).future == g.future
  {
    if g.callback.Armed? || g.callback.Inspecting? { ReportingIsSame(g, current); }
    else if g.callback.CallbackReleasing? || g.callback.Judging? { JudgingIsSame(g, current); }
    else if g.callback.CallbackClaiming? { ClaimingIsSame(g, current); }
    else { assert CallbackGen(g, current) == g; }
    hide CallbackGen, Same;
    assert Same(g, g) by { SelfSame(g); }
  }

  lemma SelfSame(g: Gen)
    ensures Same(g, g)
  {
  }

  /** Only a decision registers, of a current, admitted and timely start. */
  lemma OnlyDecisionsRegister(g: Gen, current: bool, admitted: bool, choice: bool)
    ensures StarterGen(g, current, admitted, choice).registers <==>
              g.starter.Deciding? && current && admitted && !choice
    ensures StarterGen(g, current, admitted, choice).registers ==>
              StarterGen(g, current, admitted, choice).withdraws
  {
    if IsDeciding(g.starter) {
      assert StarterGen(g, current, admitted, choice) == DecidingGen(g, current, admitted, choice);
    }
    hide Invalidated, BeginRelease, Claim;
  }

  lemma StarterKeepsId(g: Gen, current: bool, admitted: bool, choice: bool)
    requires GenInv(g, current)
    ensures var r := StarterGen(g, current, admitted, choice);
            && r.gen.id == g.id && (r.withdraws ==> current)
            && GenInv(r.gen, current && !r.withdraws)
  {
    StarterTurnKeeps(g, current, admitted, choice);
    hide GenInv, StarterGen, UsesSlot;
  }

  /** A thread's step: it rewrites its own generation, may withdraw its own pending entry,
      and registers its actor only together with that. */
  ghost predicate OwnStep(s: Sys, u: Sys, t: Ticket) {
    && t < |s.gens| == |u.gens| && u.gens == s.gens[t := u.gens[t]] && u.gens[t].id == s.gens[t].id
    && (u.pending == s.pending || (Current(s, t) && u.pending == s.pending - {s.gens[t].id}))
    && (u.actors == s.actors
        || (Current(s, t) && s.gens[t].starter.Deciding? && u.pending == s.pending - {s.gens[t].id}
            && u.actors == s.actors[s.gens[t].id := t]))
    && u.accepting == s.accepting && u.cancelledIds == s.cancelledIds
  }

  lemma ApplyIsOwn(s: Sys, t: Ticket, r: Turn)
    requires t < |s.gens| && r.gen.id == s.gens[t].id && (r.withdraws ==> Current(s, t))
    requires r.registers ==> r.withdraws && s.gens[t].starter.Deciding?
    ensures OwnStep(s, Apply(s, t, r), t)
  {
    assert s.gens[t := r.gen][t] == r.gen;
  }

  lemma StarterStepIsOwn(s: Sys, t: Ticket, choice: bool)
    requires Inv(s) && t < |s.gens|
    ensures OwnStep(s, StarterStep(s, t, choice), t)
  {
    var g := s.gens[t];
    assert GenInv(g, Current(s, t));
    hide Inv, GenInv, StarterGen;
    if !g.starter.Enqueueing? {
      var admitted := s.accepting && g.id !in s.cancelledIds && g.id !in s.actors;
      StarterKeepsId(g, Current(s, t), admitted, choice);
      OnlyDecisionsRegister(g, Current(s, t), admitted, choice);
      hide Apply, OwnStep;
      ApplyIsOwn(s, t, StarterGen(g, Current(s, t), admitted, choice));
    }
  }

  lemma CallbackStepIsOwn(s: Sys, t: Ticket)
    requires t < |s.gens|
    ensures OwnStep(s, CallbackStep(s, t), t)
  {
    var g := s.gens[t];
    hide CallbackGen;
    if !g.callback.CallbackEnqueueing? {
      CallbackIsSame(g, Current(s, t));
      hide Apply, OwnStep;
      ApplyIsOwn(s, t, Stay(CallbackGen(g, Current(s, t))));
    }
  }

  lemma CreationIsSame(g: Gen, ok: bool)
    ensures Same(g, CreationGen(g, ok))
  {
    if g.future.Queued? { assert CreationGen(g, ok) == g.(future := Running); }
    else if !g.future.Running? { assert CreationGen(g, ok) == g; }
    else { assert CreationGen(g, ok) == g.(future := if ok then Created else Future.Failed); }
    hide CreationGen;
  }

  lemma CreationStepIsOwn(s: Sys, t: Ticket, ok: bool)
    requires t < |s.gens|
    ensures OwnStep(s, Step(s, CreationTurn(t, ok)), t)
  {
    CreationIsSame(s.gens[t], ok);
    hide CreationGen, OwnStep, Apply;
    ApplyIsOwn(s, t, Stay(CreationGen(s.gens[t], ok)));
  }

  lemma KillStepIsOwn(s: Sys, t: Ticket, ok: bool)
    requires t < |s.gens|
    ensures OwnStep(s, KillStep(s, t, ok), t)
    ensures Same(s.gens[t], KillStep(s, t, ok).gens[t]) && KillStep(s, t, ok).gens[t].future == s.gens[t].future
  {
    var g := s.gens[t];
    ReleaseIsSame(g);
    hide BeginRelease;
    if g.kill.Killing? && ok { ApplyIsOwn(s, t, Stay(BeginRelease(g).(kill := Killed))); }
  }

  lemma SemaphoreStepIsOwn(s: Sys, t: Ticket)
    requires t < |s.gens|
    ensures OwnStep(s, SemaphoreStep(s, t), t)
    ensures Same(s.gens[t], SemaphoreStep(s, t).gens[t]) && SemaphoreStep(s, t).gens[t].future == s.gens[t].future
  {
  }

  lemma TurnIsOwn(s: Sys, a: Action)
    requires Inv(s) && IsTurn(a) && a.t < |s.gens|
    ensures OwnStep(s, Step(s, a), a.t)
  {
    match a
    case StarterTurn(t, choice) => StarterStepIsOwn(s, t, choice);
    case CallbackTurn(t) => CallbackStepIsOwn(s, t);
    case CreationTurn(t, ok) => CreationStepIsOwn(s, t, ok);
    case KillTurn(t, ok) => KillStepIsOwn(s, t, ok);
    case SemaphoreRelease(t) => SemaphoreStepIsOwn(s, t);
    hide OwnStep, StarterStep, CallbackStep, KillStep, SemaphoreStep, CreationGen, Inv;
  }

  // ----- a pending start is admitted ----------------------------------------

  /** While a start is pending, launches are accepted and its instance is neither cancelled
      nor registered. */
  ghost predicate Admits(s: Sys) {
    forall id <- s.pending :: s.accepting && id !in s.cancelledIds && id !in s.actors
  }

  lemma OwnStepAdmits(s: Sys, u: Sys, t: Ticket)
    requires Admits(s) && OwnStep(s, u, t)
    ensures Admits(u)
  {
  }

  lemma StepAdmits(s: Sys, a: Action)
    requires Inv(s) && Admits(s)
    ensures Admits(Step(s, a))
  {
    if IsTurn(a) {
      if a.t < |s.gens| {
        TurnIsOwn(s, a);
        hide Step, Inv;
        OwnStepAdmits(s, Step(s, a), a.t);
      }
    } else {
      assert Indexed(s);
      hide Inv, Invalidated;
    }
  }

  lemma {:induction false} RunAdmits(s: Sys, actions: seq<Action>)
    requires Inv(s) && Admits(s)
    ensures Inv(Run(s, actions)) && Admits(Run(s, actions))
    decreases |actions|
  {
    if actions != [] {
      StepKeeps(s, actions[0]);
      StepAdmits(s, actions[0]);
      hide Inv, Admits, Step;
      RunAdmits(Step(s, actions[0]), actions[1..]);
    }
  }

  // ----- undisturbed, a start is delivered ----------------------------------

  predicate Fine(f: Future) {
    !f.Failed? && !f.Cancelled?
  }

  /** On its way: neither late, refused, overtaken nor failed. */
  predicate Rolling(g: Gen) {
    && Fine(g.future)
    && (g.starter.Reserved? || g.starter.Submitting? || g.starter.Submitted? || g.starter.Published?
        || g.starter.Watching? || g.starter.Waiting? || g.starter.Awake? || g.starter.Deciding?)
  }

  predicate Landed(g: Gen) {
    Fine(g.future) && (g.starter.Accepted? || g.starter.Started?)
  }

  /** The start is current and on its way, or its actor is the registered one. */
  predicate OnTrack(s: Sys, t: Ticket) {
    && t < |s.gens|
    && var g := s.gens[t];
       (Current(s, t) && Rolling(g)) || (Landed(g) && g.id in s.actors && s.actors[g.id] == t)
  }

  /** An on-track turn of the starting thread. */
  predicate RollsOn(r: Turn) {
    || (Rolling(r.gen) && !r.withdraws && !r.registers)
    || (Landed(r.gen) && r.withdraws && r.registers)
  }

  lemma ReservedRolls(g: Gen)
    requires Rolling(g) && (g.starter.Reserved? || g.starter.Submitting?)
    ensures RollsOn(StarterGen(g, true, true, g.starter.Submitting?))
  {
    hide Invalidated;
  }

  lemma SubmittedRolls(g: Gen)
    requires Rolling(g) && (g.starter.Submitted? || g.starter.Published? || g.starter.Watching?)
    ensures RollsOn(StarterGen(g, true, true, false))
  {
  }

  lemma WaitingRolls(g: Gen)
    requires Rolling(g) && (g.starter.Waiting? || (g.starter.Awake? && g.future.Created?))
    ensures RollsOn(StarterGen(g, true, true, false))
  {
  }

  lemma DecidingRolls(g: Gen)
    requires Rolling(g) && g.starter.Deciding?
    ensures RollsOn(StarterGen(g, true, true, false))
  {
    assert StarterGen(g, true, true, false) == DecidingGen(g, true, true, false);
    DeliveryIs(g, true, true, false);
    hide StarterGen, DecidingGen;
  }

  lemma AwakeHasActor(g: Gen)
    requires GenInv(g, true) && Rolling(g) && g.starter.Awake?
    ensures g.future.Created?
  {
  }

  lemma TurnRolls(g: Gen)
    requires GenInv(g, true) && Rolling(g)
    ensures RollsOn(StarterGen(g, true, true, g.starter.Submitting?))
  {
    if g.starter.Awake? { AwakeHasActor(g); }
    hide GenInv, StarterGen, RollsOn;
    if g.starter.Reserved? || g.starter.Submitting? { ReservedRolls(g); }
    else if g.starter.Submitted? || g.starter.Published? || g.starter.Watching? { SubmittedRolls(g); }
    else if g.starter.Deciding? { DecidingRolls(g); }
    else { WaitingRolls(g); }
  }

  lemma LandedRests(g: Gen, current: bool, admitted: bool, choice: bool)
    requires Landed(g)
    ensures var r := StarterGen(g, current, admitted, choice); Landed(r.gen) && !r.withdraws && !r.registers
  {
    ReleaseIsSame(g);
    hide BeginRelease, Same;
  }

  /** A turn that leaves the maps and its thread's position alone, and no future failing. */
  ghost predicate Quiet(s: Sys, u: Sys, t: Ticket) {
    && t < |s.gens| == |u.gens| && u.gens == s.gens[t := u.gens[t]] && Same(s.gens[t], u.gens[t])
    && (Fine(s.gens[t].future) ==> Fine(u.gens[t].future))
    && u.pending == s.pending && u.actors == s.actors
  }

  lemma CallbackIsQuiet(s: Sys, t: Ticket)
    requires t < |s.gens|
    ensures Quiet(s, CallbackStep(s, t), t)
  {
    CallbackIsSame(s.gens[t], Current(s, t));
    hide CallbackGen;
  }

  lemma CreationIsFine(g: Gen)
    requires Fine(g.future)
    ensures Fine(CreationGen(g, true).future)
  {
    if g.future.Queued? { assert CreationGen(g, true) == g.(future := Running); }
    else if !g.future.Running? { assert CreationGen(g, true) == g; }
  }

  lemma CreationIsQuiet(s: Sys, t: Ticket)
    requires t < |s.gens|
    ensures Quiet(s, Step(s, CreationTurn(t, true)), t)
  {
    CreationIsSame(s.gens[t], true);
    if Fine(s.gens[t].future) { CreationIsFine(s.gens[t]); }
    hide CreationGen, Fine, Same;
  }

  lemma KillIsQuiet(s: Sys, t: Ticket, ok: bool)
    requires t < |s.gens|
    ensures Quiet(s, KillStep(s, t, ok), t) && Quiet(s, SemaphoreStep(s, t), t)
  {
    KillStepIsOwn(s, t, ok);
    SemaphoreStepIsOwn(s, t);
    assert s.gens[t := s.gens[t]] == s.gens;
    hide BeginRelease, Fine;
  }

  lemma QuietStaysOnTrack(s: Sys, u: Sys, t: Ticket)
    requires OnTrack(s, t) && Quiet(s, u, t)
    ensures OnTrack(u, t)
  {
  }

  lemma OthersStayOnTrack(s: Sys, u: Sys, x: Ticket, t: Ticket)
    requires OnTrack(s, t) && OwnStep(s, u, x) && x != t && Admits(s)
    ensures OnTrack(u, t)
  {
    hide Rolling, Landed;
  }

  lemma OwnTurnStaysOnTrack(s: Sys, t: Ticket)
    requires Inv(s) && Admits(s) && OnTrack(s, t)
    ensures OnTrack(StarterStep(s, t, s.gens[t].starter.Submitting?), t)
  {
    var g := s.gens[t];
    var admitted := s.accepting && g.id !in s.cancelledIds && g.id !in s.actors;
    assert GenInv(g, Current(s, t));
    assert !g.starter.Enqueueing?;
    StarterKeepsId(g, Current(s, t), admitted, g.starter.Submitting?);
    if Current(s, t) && Rolling(g) {
      assert admitted;
      TurnRolls(g);
    } else {
      LandedRests(g, Current(s, t), admitted, g.starter.Submitting?);
    }
    hide Inv, GenInv, StarterGen, Rolling, Landed, Admits;
    assert s.gens[t := StarterGen(g, Current(s, t), admitted, g.starter.Submitting?).gen][t].id == g.id;
  }

  /** Nobody cancels, forgets or shuts down; the executor takes the call, the creation
      succeeds and the deadline does not pass.  Everything else may happen. */
  predicate Undisturbing(s: Sys, t: Ticket, a: Action)
    requires t < |s.gens|
  {
    match a
    case StarterTurn(x, choice) => x == t ==> (choice <==> s.gens[t].starter.Submitting?)
    case CreationTurn(x, ok) => x == t ==> ok
    case RequestCancel(id) => id != s.gens[t].id
    case ForgetInstance(id) => id != s.gens[t].id
    case Shutdown => false
    case _ => true
  }

  lemma TurnStaysOnTrack(s: Sys, t: Ticket, a: Action)
    requires Inv(s) && Admits(s) && OnTrack(s, t) && IsTurn(a) && a.t < |s.gens| && Undisturbing(s, t, a)
    ensures OnTrack(Step(s, a), t)
  {
    if a.t != t {
      TurnIsOwn(s, a);
      hide Step, Inv, OwnStep, Admits;
      OthersStayOnTrack(s, Step(s, a), a.t, t);
    } else {
      hide Inv, Admits, OnTrack, Quiet, StarterStep, CallbackStep, KillStep, SemaphoreStep, CreationGen;
      match a
      case StarterTurn(_, choice) => OwnTurnStaysOnTrack(s, t);
      case CallbackTurn(_) => CallbackIsQuiet(s, t); QuietStaysOnTrack(s, CallbackStep(s, t), t);
      case CreationTurn(_, _) => CreationIsQuiet(s, t); QuietStaysOnTrack(s, Step(s, a), t);
      case KillTurn(_, ok) => KillIsQuiet(s, t, ok); QuietStaysOnTrack(s, KillStep(s, t, ok), t);
      case SemaphoreRelease(_) => KillIsQuiet(s, t, true); QuietStaysOnTrack(s, SemaphoreStep(s, t), t);
    }
  }

  lemma StepStaysOnTrack(s: Sys, t: Ticket, a: Action)
    requires Inv(s) && Admits(s) && OnTrack(s, t) && Undisturbing(s, t, a)
    ensures OnTrack(Step(s, a), t) && Step(s, a).gens[t].id == s.gens[t].id
  {
    if IsTurn(a) {
      if a.t < |s.gens| {
        TurnStaysOnTrack(s, t, a);
        TurnIsOwn(s, a);
        hide Step, OnTrack, Inv;
      }
    } else {
      assert Maps(s);
      hide Inv, Rolling, Landed;
      OthersActOnTrack(s, t, a);
    }
  }

  lemma OthersActOnTrack(s: Sys, t: Ticket, a: Action)
    requires Maps(s) && Admits(s) && OnTrack(s, t) && Undisturbing(s, t, a) && !IsTurn(a)
    ensures OnTrack(Step(s, a), t) && Step(s, a).gens[t].id == s.gens[t].id
  {
    hide Rolling, Landed, Invalidated;
    match a
    case Begin(id) => assert (s.gens + [NewGen(id)])[t] == s.gens[t]; hide NewGen;
    case RequestCancel(id) => CancelOnTrack(s, t, id); hide Invalidate, OnTrack;
    case ClearCancel(_) =>
    case ForgetInstance(_) =>
  }

  lemma CancelOnTrack(s: Sys, t: Ticket, id: Id)
    requires Maps(s) && OnTrack(s, t) && id != s.gens[t].id
    ensures var u := Invalidate(s.(cancelledIds := s.cancelledIds + {id}), id);
            OnTrack(u, t) && u.gens[t] == s.gens[t]
  {
    hide Rolling, Landed, Invalidated;
  }

  predicate AllUndisturbing(s: Sys, t: Ticket, actions: seq<Action>)
    requires t < |s.gens|
    decreases |actions|
  {
    actions == [] ||
    (Undisturbing(s, t, actions[0]) && t < |Step(s, actions[0]).gens|
     && AllUndisturbing(Step(s, actions[0]), t, actions[1..]))
  }

  lemma {:induction false} RunStaysOnTrack(s: Sys, t: Ticket, actions: seq<Action>)
    requires Inv(s) && Admits(s) && OnTrack(s, t) && AllUndisturbing(s, t, actions)
    ensures Inv(Run(s, actions)) && OnTrack(Run(s, actions), t) && Run(s, actions).gens[t].id == s.gens[t].id
    decreases |actions|
  {
    if actions != [] {
      StepKeeps(s, actions[0]);
      StepAdmits(s, actions[0]);
      StepStaysOnTrack(s, t, actions[0]);
      hide Inv, Admits, Step, OnTrack, Undisturbing;
      RunStaysOnTrack(Step(s, actions[0]), t, actions[1..]);
    }
  }

  lemma LandedIsRegistered(g: Gen, current: bool)
    requires GenInv(g, current) && Landed(g)
    ensures g.registrations == 1 && g.claims == 0 && !g.claimed && g.kill.NoKill? && g.future.Created?
  {
  }

  lemma RolledOut(s: Sys, t: Ticket)
    requires OnTrack(s, t) && Finished(s.gens[t])
    ensures Landed(s.gens[t]) && s.gens[t].starter.Started?
    ensures s.gens[t].id in s.actors && s.actors[s.gens[t].id] == t
  {
  }

  /** Whatever else happens, a start on its way stays on its way as long as nobody cancels
      it, shuts down or forgets it, its creation succeeds and its deadline does not pass;
      and when its threads are done, its actor is the registered one, once, and is never
      claimed for a kill. */
  lemma {:induction false} UndisturbedStartIsDelivered(actions: seq<Action>, t: Ticket, more: seq<Action>)
    requires t < |Run(INIT, actions).gens| && OnTrack(Run(INIT, actions), t)
    requires AllUndisturbing(Run(INIT, actions), t, more)
    ensures var s := Run(INIT, actions + more);
            && OnTrack(s, t)
            && (Finished(s.gens[t]) ==>
                  && s.gens[t].id in s.actors && s.actors[s.gens[t].id] == t && s.gens[t].starter.Started?
                  && s.gens[t].registrations == 1 && s.gens[t].claims == 0 && s.gens[t].kill.NoKill?)
  {
    InitInv();
    RunAdmits(INIT, actions);
    RunStaysOnTrack(Run(INIT, actions), t, more);
    RunConcat(INIT, actions, more);
    var s := Run(INIT, actions + more);
    assert GenInv(s.gens[t], Current(s, t));
    hide Inv, GenInv, Run, OnTrack, AllUndisturbing, Landed, Finished, Admits;
    if Finished(s.gens[t]) {
      RolledOut(s, t);
      LandedIsRegistered(s.gens[t], Current(s, t));
    }
  }

  /** A start begins exactly while launches are accepted, the instance is neither cancelled,
      registered nor pending, and a cleanup slot is free; it is on its way then, and holds
      one slot. */
  lemma BeginIs(s: Sys, id: Id)
    requires Maps(s)
    ensures var u := Step(s, Begin(id));
            if s.accepting && id !in s.cancelledIds && id !in s.actors && id !in s.pending && s.permits > 0 then
              && |u.gens| == |s.gens| + 1 && u.gens[..|s.gens|] == s.gens
              && u.gens[|s.gens|].id == id && OnTrack(u, |s.gens|) && u.gens[|s.gens|].held
              && u.permits == s.permits - 1 && u.actors == s.actors && u.killQueue == s.killQueue
              && u.cancelledIds == s.cancelledIds && u.accepting == s.accepting
            else u == s
  {
  }

  lemma AnsweredIsUndisturbing(s: Sys, t: Ticket, a: Action)
    requires t < |s.gens| && Answered(s, a)
    ensures Undisturbing(s, t, a)
  {
  }

  lemma {:induction false} AnsweredRunsAreUndisturbing(s: Sys, t: Ticket, actions: seq<Action>)
    requires Inv(s) && t < |s.gens| && AllAnswered(s, actions)
    ensures AllUndisturbing(s, t, actions)
    decreases |actions|
  {
    if actions != [] {
      AnsweredIsUndisturbing(s, t, actions[0]);
      StepKeeps(s, actions[0]);
      TurnLowers(s, actions[0]);
      hide Inv, Step, Answered, Undisturbing, Total;
      AnsweredRunsAreUndisturbing(Step(s, actions[0]), t, actions[1..]);
    }
  }

  /** From any point of any run: a start asked for while it may begin ends, when Ray answers
      and no deadline passes, with its actor registered. */
  lemma {:induction false} StartEndsRegistered(actions: seq<Action>, id: Id) returns (more: seq<Action>)
    requires var s := Run(INIT, actions);
             s.accepting && id !in s.cancelledIds && id !in s.actors && id !in s.pending && s.permits > 0
    ensures var s := Step(Run(INIT, actions), Begin(id)); var u := Run(s, more); var t := |s.gens| - 1;
            && AllAnswered(s, more)
            && t >= 0 && t < |u.gens| && u.gens[t].id == id && id in u.actors && u.actors[id] == t
            && u.gens[t].registrations == 1 && u.gens[t].claims == 0
  {
    var s0 := Run(INIT, actions);
    var s := Step(s0, Begin(id));
    InitInv();
    RunAdmits(INIT, actions);
    assert Maps(s0);
    BeginIs(s0, id);
    StepKeeps(s0, Begin(id));
    StepAdmits(s0, Begin(id));
    var t := |s0.gens|;
    hide Inv, Admits, Step, Run, Maps;
    more := QuiescenceIsReached(s);
    AnsweredRunsAreUndisturbing(s, t, more);
    RunStaysOnTrack(s, t, more);
    var u := Run(s, more);
    assert Finished(u.gens[t]);
    assert GenInv(u.gens[t], Current(u, t)) by { GenInvAt(u, t); }
    hide OnTrack, Finished, GenInv, Landed, Quiescent;
    RolledOut(u, t);
    LandedIsRegistered(u.gens[t], Current(u, t));
  }

  lemma GenInvAt(s: Sys, t: Ticket)
    requires Inv(s) && t < |s.gens|
    ensures GenInv(s.gens[t], Current(s, t))
  {
    hide GenInv;
  }

  // ----- an overtaken start is never delivered -------------------------------

  /** No longer current, and not delivered. */
  predicate Overtaken(s: Sys, t: Ticket) {
    t < |s.gens| && !Current(s, t) && !s.gens[t].delivered
  }

  lemma InvalidatedIsSame(g: Gen)
    ensures Same(g, Invalidated(g))
  {
  }

  lemma ReservedDelivers(g: Gen, current: bool, admitted: bool, choice: bool)
    requires g.starter.Reserved?
    ensures ExpiringGen(g, current, choice).gen.delivered == g.delivered
  {
    InvalidatedIsSame(g);
    hide Invalidated;
  }

  lemma ExpiredDelivers(g: Gen, current: bool, admitted: bool, choice: bool)
    requires g.starter.Expired?
    ensures ExpiringGen(g, current, choice).gen.delivered == g.delivered
  {
    InvalidatedIsSame(g);
    hide Invalidated;
  }

  lemma SubmittingDelivers(g: Gen, current: bool, admitted: bool, choice: bool)
    requires g.starter.Submitting? || g.starter.SubmitRefused?
    ensures SubmittingGen(g, current, choice).gen.delivered == g.delivered
  {
  }

  lemma ReleasingDelivers(g: Gen, current: bool, admitted: bool, choice: bool)
    requires g.starter.Releasing?
    ensures SubmittingGen(g, current, choice).gen.delivered == g.delivered
  {
    ReleaseIsSame(g);
    hide BeginRelease;
  }

  lemma PublishingDelivers(g: Gen, current: bool, admitted: bool, choice: bool)
    requires g.starter.Submitted? || g.starter.Published?
    ensures PublishingGen(g, current).gen.delivered == g.delivered
  {
  }

  lemma WatchingDelivers(g: Gen, current: bool, admitted: bool, choice: bool)
    requires g.starter.Watching? || g.starter.Superseded?
    ensures PublishingGen(g, current).gen.delivered == g.delivered
  {
  }

  lemma BlockedDelivers(g: Gen, current: bool, admitted: bool, choice: bool)
    requires g.starter.Waiting?
    ensures WaitingGen(g, choice).gen.delivered == g.delivered
  {
  }

  lemma AwakeDelivers(g: Gen, current: bool, admitted: bool, choice: bool)
    requires g.starter.Awake?
    ensures WaitingGen(g, choice).gen.delivered == g.delivered
  {
  }

  lemma LateDelivers(g: Gen, current: bool, admitted: bool, choice: bool)
    requires g.starter.ExpiredLate?
    ensures WaitingGen(g, choice).gen.delivered == g.delivered
  {
  }

  lemma ClaimingDelivers(g: Gen, current: bool, admitted: bool, choice: bool)
    requires g.starter.Claiming? || g.starter.CreationFailed?
    ensures DecidingGen(g, current, admitted, choice).gen.delivered == g.delivered
  {
  }

  lemma AcceptedDelivers(g: Gen, current: bool, admitted: bool, choice: bool)
    requires g.starter.Accepted?
    ensures DecidingGen(g, current, admitted, choice).gen.delivered == g.delivered
  {
    ReleaseIsSame(g);
    hide BeginRelease;
  }

  /** Only a decision about a current start delivers. */
  lemma OnlyDecisionsDeliver(g: Gen, admitted: bool, choice: bool)
    ensures StarterGen(g, false, admitted, choice).gen.delivered == g.delivered
  {
    hide ExpiringGen, SubmittingGen, PublishingGen, WaitingGen, DecidingGen;
    if g.starter.Reserved? { ReservedDelivers(g, false, admitted, choice); }
    else if g.starter.Expired? { ExpiredDelivers(g, false, admitted, choice); }
    else if g.starter.Submitting? || g.starter.SubmitRefused? { SubmittingDelivers(g, false, admitted, choice); }
    else if g.starter.Releasing? { ReleasingDelivers(g, false, admitted, choice); }
    else if g.starter.Submitted? || g.starter.Published? { PublishingDelivers(g, false, admitted, choice); }
    else if g.starter.Watching? || g.starter.Superseded? { WatchingDelivers(g, false, admitted, choice); }
    else if g.starter.Waiting? { BlockedDelivers(g, false, admitted, choice); }
    else if g.starter.Awake? { AwakeDelivers(g, false, admitted, choice); }
    else if g.starter.ExpiredLate? { LateDelivers(g, false, admitted, choice); }
    else if g.starter.Claiming? || g.starter.CreationFailed? { ClaimingDelivers(g, false, admitted, choice); }
    else if g.starter.Accepted? { AcceptedDelivers(g, false, admitted, choice); }
    else if g.starter.Deciding? { DeliveryIs(g, false, admitted, choice); }
  }

  lemma OwnTurnStaysOvertaken(s: Sys, t: Ticket, choice: bool)
    requires Overtaken(s, t)
    ensures StarterStep(s, t, choice).gens[t].delivered == s.gens[t].delivered
  {
    var g := s.gens[t];
    OnlyDecisionsDeliver(g, s.accepting && g.id !in s.cancelledIds && g.id !in s.actors, choice);
    hide StarterGen, Current;
    assert s.gens[t].starter.Enqueueing? || !Current(s, t);
  }

  lemma TurnStaysOvertaken(s: Sys, t: Ticket, a: Action)
    requires Inv(s) && Overtaken(s, t) && IsTurn(a) && a.t < |s.gens|
    ensures Overtaken(Step(s, a), t)
  {
    TurnIsOwn(s, a);
    hide Inv;
    assert Step(s, a).gens[t].delivered == s.gens[t].delivered by {
      hide OwnStep, StarterStep, CallbackStep, KillStep, SemaphoreStep, CreationGen;
      if a.t == t {
        match a
        case StarterTurn(_, choice) => OwnTurnStaysOvertaken(s, t, choice);
        case CallbackTurn(_) => CallbackIsQuiet(s, t);
        case CreationTurn(_, ok) => CreationIsSame(s.gens[t], ok);
        case KillTurn(_, ok) => KillStepIsOwn(s, t, ok);
        case SemaphoreRelease(_) => SemaphoreStepIsOwn(s, t);
      } else {
        OtherGenIsKept(s, Step(s, a), a.t, t);
      }
    }
    hide Step;
  }

  lemma OtherGenIsKept(s: Sys, u: Sys, x: Ticket, t: Ticket)
    requires OwnStep(s, u, x) && x != t && t < |s.gens|
    ensures u.gens[t] == s.gens[t]
  {
  }

  lemma StepStaysOvertaken(s: Sys, t: Ticket, a: Action)
    requires Inv(s) && Overtaken(s, t)
    ensures Overtaken(Step(s, a), t)
  {
    if IsTurn(a) {
      if a.t < |s.gens| { TurnStaysOvertaken(s, t, a); }
    } else {
      OthersLeaveOvertaken(s, t, a);
    }
    hide Inv, Step, Overtaken;
  }

  lemma OthersLeaveOvertaken(s: Sys, t: Ticket, a: Action)
    requires Overtaken(s, t) && !IsTurn(a)
    ensures Overtaken(Step(s, a), t)
  {
    forall g: Gen ensures Invalidated(g).delivered == g.delivered && Invalidated(g).id == g.id { InvalidatedIsSame(g); }
    hide Invalidated;
  }

  lemma {:induction false} RunStaysOvertaken(s: Sys, t: Ticket, actions: seq<Action>)
    requires Inv(s) && Overtaken(s, t)
    ensures Overtaken(Run(s, actions), t)
    decreases |actions|
  {
    if actions != [] {
      StepKeeps(s, actions[0]);
      StepStaysOvertaken(s, t, actions[0]);
      hide Inv, Step, Overtaken;
      RunStaysOvertaken(Step(s, actions[0]), t, actions[1..]);
    }
  }

  lemma CancelOvertakes(s: Sys, id: Id, t: Ticket)
    requires t < |s.gens| && !s.gens[t].delivered && s.gens[t].id == id
    ensures Overtaken(Step(s, RequestCancel(id)), t)
  {
    InvalidatedIsSame(s.gens[t]);
    hide Invalidated;
  }

  lemma ShutdownOvertakes(s: Sys, t: Ticket)
    requires t < |s.gens| && !s.gens[t].delivered
    ensures Overtaken(Step(s, Shutdown), t)
  {
    InvalidatedIsSame(s.gens[t]);
    hide Invalidated;
  }

  /** A start that is cancelled, or caught by a shutdown, before its actor was delivered is
      never delivered, whatever follows. */
  lemma {:induction false} CancelledStartIsNeverDelivered(actions: seq<Action>, t: Ticket, more: seq<Action>)
    requires var s := Run(INIT, actions); t < |s.gens| && !s.gens[t].delivered
    ensures var s := Run(INIT, actions); var u := Run(Step(s, RequestCancel(s.gens[t].id)), more);
            t < |u.gens| && !u.gens[t].delivered
    ensures var v := Run(Step(Run(INIT, actions), Shutdown), more); t < |v.gens| && !v.gens[t].delivered
  {
    var s := Run(INIT, actions);
    InitInv();
    RunKeeps(INIT, actions);
    StepKeeps(s, RequestCancel(s.gens[t].id));
    StepKeeps(s, Shutdown);
    CancelOvertakes(s, s.gens[t].id, t);
    ShutdownOvertakes(s, t);
    hide Inv, Step, Run;
    RunStaysOvertaken(Step(s, RequestCancel(s.gens[t].id)), t, more);
    RunStaysOvertaken(Step(s, Shutdown), t, more);
  }
}
