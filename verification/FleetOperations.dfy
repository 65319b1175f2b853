/** What every operation of `InstanceFleet` does, said in the manager's dictionaries: when
    it takes effect, what it leaves, and that it touches no other instance. */
module FleetOperations {
  import opened Options
  import D = Demand
  import opened InstanceFleet

  /** Nothing of any other instance differs. */
  ghost predicate OnlyAt(f: Fleet, g: Fleet, id: Id) {
    && g.max == f.max && g.limits == f.limits
    && g.states - {id} == f.states - {id} && g.actors - {id} == f.actors - {id}
    && g.details - {id} == f.details - {id} && g.metadata - {id} == f.metadata - {id}
    && g.claims - {id} == f.claims - {id}
  }

  /** The instance is in this state, and in the index, under its own model, and the
      affinities only when it is ready. */
  ghost predicate Is(g: Fleet, id: Id, status: Status) {
    && InState(g, id, status)
    && (status != Ready ==>
          (forall key: Key :: id !in Indexed(g, key)) && forall k <- g.affinity :: g.affinity[k] != id)
    && (status == Ready ==>
          id in g.metadata && forall key: Key :: id in Indexed(g, key) <==> g.metadata[id].key == key)
  }

  lemma StateIs(g: Fleet, id: Id, status: Status)
    requires Inv(g) && InState(g, id, status)
    ensures Is(g, id, status)
  {
    hide Load, Ownership, D.Inv, Indexed;
    forall key: Key ensures id in Indexed(g, key) <==> Routable(g, key, id) {}
  }

  lemma Known(f: Fleet, id: Id)
    requires Inv(f)
    ensures id in f.actors <==> id in f.states
    ensures id in f.actors <==> id in f.details
    ensures id in f.metadata ==> id in f.actors && f.metadata[id].key == f.details[id].key
    ensures InState(f, id, Launching) ==> id !in f.metadata
    ensures InState(f, id, Ready) ==> id in f.metadata
    ensures id in f.actors ==> f.actors[id] < f.born
  {
    hide Routing, Load, Ownership, D.Inv;
  }

  lemma ActorsAreOld(f: Fleet)
    requires Inv(f)
    ensures forall x <- f.actors :: f.actors[x] < f.born
  {
    hide Routing, Load, Ownership, D.Inv;
  }

  // The same without the invariant, one operation's fields after another.

  lemma RegisterDoes(f: Fleet, id: Id, detail: Detail)
    requires id !in f.actors && id !in f.metadata
    ensures var g := DoRegister(f, id, detail);
            && OnlyAt(f, g, id) && InState(g, id, Launching) && id in g.actors && g.actors[id] == f.born
            && id in g.details && g.details[id] == detail && g.metadata == f.metadata && g.demand == f.demand
  {
  }

  lemma KnownIsKept(f: Fleet, id: Id, detail: Detail)
    requires id in f.actors
    ensures DoRegister(f, id, detail) == f
  {
  }

  lemma ReadyDoes(f: Fleet, id: Id, actor: Actor, now: real)
    ensures var g := DoMarkReady(f, id, actor, now);
            if id in f.actors && f.actors[id] == actor && InState(f, id, Launching) && id in f.details then
              && OnlyAt(f, g, id) && InState(g, id, Ready) && g.actors == f.actors && g.details == f.details
              && id in g.metadata && g.metadata[id].key == f.details[id].key
              && (id !in f.metadata ==> g.metadata[id].inflight == 0 && g.metadata[id].created == now)
              && g.metadata[id].limit == (if f.details[id].key in f.limits then f.limits[f.details[id].key] else f.max)
              && id !in g.demand.auto && g.demand.pending == f.demand.pending
            else g == f
  {
    hide D.DoClear, Indexed;
    DeploymentGoes(f.demand, id);
  }

  lemma DeploymentGoes(b: D.Book, id: Id)
    ensures var c := D.DoClear(b, D.OfInstance(id)); id !in c.auto && c.pending == b.pending
  {
  }

  lemma LeaveDoes(f: Fleet, id: Id, status: Status)
    ensures var g := Leave(f, id, status);
            && OnlyAt(f, g, id) && InState(g, id, status) && g.claims == f.claims && g.owners == f.owners
            && g.actors == f.actors && g.metadata == f.metadata && g.demand == f.demand
  {
    hide Unlisted, Unbound;
  }

  lemma WithdrawnIs(f: Fleet, id: Id)
    ensures var g := WithdrawClaimed(f, id);
            && OnlyAt(f, g, id) && InState(g, id, Stopping) && id in g.claims
            && g.actors == f.actors && g.metadata == f.metadata && g.owners == f.owners && g.demand == f.demand
  {
    hide Unlisted, Unbound;
  }

  lemma CancelClaimDoes(f: Fleet, id: Id)
    ensures var g := DoCancelClaim(f, id);
            if id in f.claims && InState(f, id, Stopping) && id in f.metadata && id in f.details then
              && OnlyAt(f, g, id) && InState(g, id, Ready) && id !in g.claims
              && g.actors == f.actors && g.metadata == f.metadata && g.owners == f.owners && g.demand == f.demand
            else g == f
  {
    hide Indexed;
  }

  lemma OwnedNow(f: Fleet, caller: Caller, id: Id)
    requires id in f.actors
    ensures var g := WithdrawOwned(f, caller, id);
            && OnlyAt(f, g, id) && InState(g, id, Stopping) && g.claims == f.claims
            && caller in g.owners && g.owners[caller] == Stop(id, f.actors[id])
            && g.actors == f.actors && g.metadata == f.metadata && g.demand == f.demand
  {
    hide Unlisted, Unbound;
  }

  lemma TakeDoes(f: Fleet, caller: Caller, id: Id)
    requires id in f.actors
    ensures var g := TakeClaim(f, caller, id);
            if id in f.claims then
              && OnlyAt(f, g, id) && id !in g.claims && g.states == f.states
              && caller in g.owners && g.owners[caller] == Stop(id, f.actors[id])
              && g.actors == f.actors && g.metadata == f.metadata && g.demand == f.demand
            else g == f
  {
  }

  lemma EndDoes(f: Fleet, caller: Caller, own: Stop, killed: bool, cleaned: bool, inTime: bool)
    requires caller in f.owners && f.owners[caller] == own
    requires own.id in f.details && own.id in f.actors && f.actors[own.id] == own.actor
    ensures var g := DoStopEnd(f, caller, killed, cleaned, inTime);
            && OnlyAt(f, g, own.id)
            && InState(g, own.id, if killed && cleaned && inTime then Stopped else CleanupPending)
            && caller !in g.owners && g.actors == f.actors && g.metadata == f.metadata
            && (own.actor in g.confirmed <==> own.actor in f.confirmed || (killed && cleaned))
  {
  }

  lemma ForgetDoes(f: Fleet, id: Id)
    ensures var g := Forget(f, id);
            && OnlyAt(f, g, id) && id !in g.states && id !in g.actors && id !in g.details && id !in g.metadata
            && id !in g.claims && id !in g.demand.auto && g.owners == f.owners
            && (id in f.actors ==> g.forgotten == f.forgotten + {f.actors[id]})
  {
    hide Unlisted, Unbound, D.DoClear;
    var t := Unroute(f, id);
    assert t.states == f.states && t.actors == f.actors && t.details == f.details && t.metadata == f.metadata
           && t.claims == f.claims && t.max == f.max && t.limits == f.limits && t.demand == f.demand
           && t.owners == f.owners;
    hide Unroute;
    DeploymentGoes(f.demand, id);
  }

  // ----- the operations -----------------------------------------------------

  /** A new id is launching under an actor nobody had before. */
  lemma RegisterIs(f: Fleet, id: Id, detail: Detail)
    requires Inv(f)
    ensures var g := Step(f, Register(id, detail));
            if id in f.actors then g == f
            else
              && OnlyAt(f, g, id) && Is(g, id, Launching)
              && id in g.actors && (forall x <- f.actors :: f.actors[x] != g.actors[id])
              && id in g.details && g.details[id] == detail && id !in g.metadata
              && g.demand == f.demand
  {
    StepKeeps(f, Register(id, detail));
    Known(f, id);
    ActorsAreOld(f);
    hide Inv, Is, OnlyAt, DoRegister;
    if id !in f.actors {
      RegisterDoes(f, id, detail);
      StateIs(DoRegister(f, id, detail), id, Launching);
    } else {
      KnownIsKept(f, id, detail);
    }
  }

  /** Exactly a launching instance with that actor becomes ready: it is indexed under its own
      model, starts with no request, as the model's admission allows, and its deployment
      mark goes. */
  lemma ReadyIs(f: Fleet, id: Id, actor: Actor, now: real)
    requires Inv(f)
    ensures var g := Step(f, MarkReady(id, actor, now));
            if id in f.actors && f.actors[id] == actor && InState(f, id, Launching) && id in f.details then
              && OnlyAt(f, g, id) && Is(g, id, Ready) && g.actors == f.actors && g.details == f.details
              && id in g.metadata && g.metadata[id].key == f.details[id].key && g.metadata[id].inflight == 0
              && g.metadata[id].limit == (if f.details[id].key in f.limits then f.limits[f.details[id].key] else f.max)
              && g.metadata[id].created == now
              && id !in g.demand.auto && g.demand.pending == f.demand.pending
            else g == f
  {
    StepKeeps(f, MarkReady(id, actor, now));
    Known(f, id);
    hide Inv, Is, OnlyAt, DoMarkReady;
    ReadyDoes(f, id, actor, now);
    if InState(f, id, Launching) && id in f.actors && f.actors[id] == actor {
      StateIs(DoMarkReady(f, id, actor, now), id, Ready);
    }
  }

  /** Exactly a ready instance with that actor becomes unhealthy. */
  lemma UnhealthyIs(f: Fleet, id: Id, actor: Actor)
    requires Inv(f)
    ensures var g := Step(f, MarkUnhealthy(id, actor));
            if id in f.actors && f.actors[id] == actor && InState(f, id, Ready) then
              && OnlyAt(f, g, id) && Is(g, id, Unhealthy)
              && g.actors == f.actors && g.metadata == f.metadata && g.claims == f.claims && g.demand == f.demand
            else g == f
  {
    StepKeeps(f, MarkUnhealthy(id, actor));
    hide Inv, Is, OnlyAt, Leave;
    LeaveDoes(f, id, Unhealthy);
    if id in f.actors && f.actors[id] == actor && InState(f, id, Ready) {
      StateIs(Leave(f, id, Unhealthy), id, Unhealthy);
    }
  }

  /** A cancelled start becomes a claimed stop exactly while it is launching or ready. */
  lemma CancelIs(f: Fleet, id: Id)
    requires Inv(f)
    ensures var g := Step(f, RequestCancel(id));
            if InState(f, id, Launching) || InState(f, id, Ready) then
              && OnlyAt(f, g, id) && Is(g, id, Stopping) && id in g.claims
              && g.actors == f.actors && g.metadata == f.metadata && g.owners == f.owners && g.demand == f.demand
            else g == f
  {
    StepKeeps(f, RequestCancel(id));
    hide Inv, Is, OnlyAt, WithdrawClaimed;
    WithdrawnIs(f, id);
    if InState(f, id, Launching) || InState(f, id, Ready) { StateIs(WithdrawClaimed(f, id), id, Stopping); }
  }

  /** Since when an instance has been idle: its last route or release, else when it became
      ready; 0.0 stands for never. */
  predicate IdleFrom(m: Meta, now: real, since: real) {
    && (m.lastUsed != 0.0 ==> since == m.lastUsed)
    && (m.lastUsed == 0.0 && m.created != 0.0 ==> since == m.created)
    && (m.lastUsed == 0.0 && m.created == 0.0 ==> since == now)
  }

  /** A claim is granted exactly for a ready instance that serves nothing, has been idle
      long enough and since when the caller believes, and whose model nobody waits for when
      that is asked; and then the instance is out of routing and stopping. */
  lemma ClaimIs(f: Fleet, id: Id, idle: Idle, since: real)
    requires Inv(f) && id in f.metadata && IdleFrom(f.metadata[id], idle.now, since)
    ensures var g := Step(f, ClaimScaleIn(id, idle));
            if InState(f, id, Ready) && f.metadata[id].inflight == 0
               && since + idle.seconds <= idle.now && (idle.expectedSince == None || idle.expectedSince == Some(since))
               && (idle.noPending ==> D.Pending(f.demand, f.metadata[id].key) == {})
            then
              && OnlyAt(f, g, id) && Is(g, id, Stopping) && id in g.claims
              && g.actors == f.actors && g.metadata == f.metadata && g.owners == f.owners && g.demand == f.demand
            else g == f
  {
    StepKeeps(f, ClaimScaleIn(id, idle));
    hide Inv, Is, OnlyAt, D.Pending, WithdrawClaimed;
    WithdrawnIs(f, id);
    if Claimable(f, id, idle) { StateIs(WithdrawClaimed(f, id), id, Stopping); }
  }

  /** Exactly an untaken claim is undone: the instance is ready and indexed again. */
  lemma CancelClaimIs(f: Fleet, id: Id)
    requires Inv(f)
    ensures var g := Step(f, CancelClaim(id));
            if id in f.claims && id in f.metadata then
              && OnlyAt(f, g, id) && Is(g, id, Ready) && id !in g.claims
              && g.actors == f.actors && g.metadata == f.metadata && g.owners == f.owners && g.demand == f.demand
            else g == f
  {
    StepKeeps(f, CancelClaim(id));
    Known(f, id);
    ClaimIsStopping(f, id);
    hide Inv, Is, OnlyAt, DoCancelClaim;
    CancelClaimDoes(f, id);
    if id in f.claims && id in f.metadata { StateIs(DoCancelClaim(f, id), id, Ready); }
  }

  lemma ClaimIsStopping(f: Fleet, id: Id)
    requires Inv(f)
    ensures id in f.claims ==> InState(f, id, Stopping)
  {
    hide Domains, Routing, Load, Confirmed, D.Inv;
  }

  /** Who becomes the owner of a stop: the caller, of the expected actor, unless somebody
      stops the instance already and left no claim, or it is stopped. */
  lemma StopBeginIs(f: Fleet, caller: Caller, id: Id, expected: Option<Actor>, finalize: bool)
    requires Inv(f) && caller !in f.owners
    ensures var g := Step(f, StopBegin(caller, id, expected, finalize));
            var known := id in f.actors && (expected == None || expected == Some(f.actors[id]));
            if known && InState(f, id, Stopped) then
              (if finalize then id !in g.actors && g.owners == f.owners else g == f)
            else if known && !(InState(f, id, Stopping) && id !in f.claims) then
              && OnlyAt(f, g, id) && Is(g, id, Stopping) && id !in g.claims
              && caller in g.owners && g.owners[caller] == Stop(id, f.actors[id])
              && g.actors == f.actors && g.metadata == f.metadata && g.demand == f.demand
            else g == f
  {
    StepKeeps(f, StopBegin(caller, id, expected, finalize));
    Known(f, id);
    ClaimIsStopping(f, id);
    hide Inv, Is, OnlyAt, WithdrawOwned, TakeClaim, Forget;
    var g := DoStopBegin(f, caller, id, expected, finalize);
    if id in f.actors && IsExpected(f, id, expected) {
      if InState(f, id, Stopped) {
        ForgetDoes(f, id);
      } else if InState(f, id, Stopping) {
        TakeDoes(f, caller, id);
        if id in f.claims { StateIs(g, id, Stopping); }
      } else {
        OwnedNow(f, caller, id);
        StateIs(g, id, Stopping);
      }
    }
  }

  /** What the owner's control transaction leaves: stopped exactly when it confirmed both in
      time, else waiting for cleanup; what it confirmed stays confirmed. */
  lemma StopEndIs(f: Fleet, caller: Caller, own: Stop, killed: bool, cleaned: bool, inTime: bool)
    requires Inv(f) && caller in f.owners && f.owners[caller] == own
    ensures var g := Step(f, StopEnd(caller, killed, cleaned, inTime));
            && OnlyAt(f, g, own.id) && Is(g, own.id, if killed && cleaned && inTime then Stopped else CleanupPending)
            && caller !in g.owners && g.actors == f.actors && g.metadata == f.metadata
            && (own.actor in g.confirmed <==> own.actor in f.confirmed || (killed && cleaned))
  {
    StepKeeps(f, StopEnd(caller, killed, cleaned, inTime));
    OwnedIs(f, caller);
    Known(f, own.id);
    var g := Step(f, StopEnd(caller, killed, cleaned, inTime));
    assert g == DoStopEnd(f, caller, killed, cleaned, inTime);
    hide Inv, Is, OnlyAt, DoStopEnd, Step;
    EndDoes(f, caller, own, killed, cleaned, inTime);
    StateIs(g, own.id, if killed && cleaned && inTime then Stopped else CleanupPending);
  }

  lemma OwnedIs(f: Fleet, caller: Caller)
    requires Inv(f) && caller in f.owners
    ensures var own := f.owners[caller];
            InState(f, own.id, Stopping) && own.id in f.actors && f.actors[own.id] == own.actor
  {
    hide Domains, Routing, Load, Confirmed, D.Inv;
  }

  /** Exactly a stopped instance with the expected actor is forgotten, everywhere. */
  lemma FinalizeIs(f: Fleet, id: Id, expected: Option<Actor>)
    requires Inv(f)
    ensures var g := Step(f, Finalize(id, expected));
            if InState(f, id, Stopped) && id in f.actors && (expected == None || expected == Some(f.actors[id])) then
              && OnlyAt(f, g, id) && id !in g.states && id !in g.actors && id !in g.details && id !in g.metadata
              && id !in g.claims && id !in g.demand.auto && g.owners == f.owners
              && g.forgotten == f.forgotten + {f.actors[id]}
            else g == f
  {
    Known(f, id);
    hide Inv, OnlyAt, Forget;
    ForgetDoes(f, id);
  }

  /** After an out-of-memory failure: a busy ready instance, and its model from then on, take
      one request at a time; an idle one is drained. */
  lemma RecoveryIs(f: Fleet, id: Id)
    requires Inv(f)
    ensures var g := Step(f, PrepareRecovery(id));
            if !InState(f, id, Ready) || id !in f.metadata then g == f
            else if f.metadata[id].inflight > 0 then
              g == f.(metadata := f.metadata[id := f.metadata[id].(limit := 1)],
                      limits := f.limits[f.metadata[id].key := 1])
            else
              && OnlyAt(f, g, id) && Is(g, id, Draining) && g.metadata == f.metadata && g.demand == f.demand
              && g.actors == f.actors
  {
    StepKeeps(f, PrepareRecovery(id));
    hide Inv, Is, OnlyAt, Leave;
    LeaveDoes(f, id, Draining);
    if InState(f, id, Ready) && id in f.metadata && f.metadata[id].inflight == 0 {
      StateIs(Leave(f, id, Draining), id, Draining);
    }
  }

  /** A route counts one request at the chosen instance, which has been used now and becomes
      the workflow's own; everything else about instances stays. */
  lemma RouteIs(f: Fleet, ticket: Ticket, ask: Ask, now: real)
    requires ticket !in f.routes
    ensures var g := Step(f, Route(ticket, ask, now));
            && g.states == f.states && g.actors == f.actors && g.routing == f.routing && g.claims == f.claims
            && match Selected(f, ask)
               case None => g.metadata == f.metadata && g.affinity == f.affinity && g.routes == f.routes
               case Some(id) =>
                 && g.routes == f.routes[ticket := id]
                 && id in f.metadata && g.metadata - {id} == f.metadata - {id}
                 && id in g.metadata
                 && g.metadata[id] == f.metadata[id].(inflight := f.metadata[id].inflight + 1, lastUsed := now)
                 && (ask.workflow != "" ==>
                       && (ask.workflow, ask.key) in g.affinity && g.affinity[(ask.workflow, ask.key)] == id
                       && g.affinity - {(ask.workflow, ask.key)} == f.affinity - {(ask.workflow, ask.key)})
                 && (ask.workflow == "" ==> g.affinity == f.affinity)
  {
    RoutedOwn(f, ask);
    hide Candidate, HasRoom, D.DoRecord, D.DoSatisfy, RequestOf, AffinityHit, Selected, AffinityAfter, Available;
    if Selected(f, ask).Some? { AffinityAfterIs(f, ask, Selected(f, ask).value); }
  }

  lemma AffinityAfterIs(f: Fleet, ask: Ask, id: Id)
    requires AffinityHit(f, ask) ==> f.affinity[(ask.workflow, ask.key)] == id
    ensures var k := (ask.workflow, ask.key); var after := AffinityAfter(f, ask, id);
            && (ask.workflow != "" ==> k in after && after[k] == id && after - {k} == f.affinity - {k})
            && (AffinityHit(f, ask) || ask.workflow == "" ==> after == f.affinity)
  {
    hide Candidate, HasRoom;
  }

  lemma RoutedOwn(f: Fleet, ask: Ask)
    ensures AffinityHit(f, ask) ==>
              && (ask.workflow, ask.key) in f.affinity
              && Selected(f, ask) == Some(f.affinity[(ask.workflow, ask.key)])
    ensures Selected(f, ask).Some? ==> Selected(f, ask).value in f.metadata
  {
    hide Best;
  }

  /** A release counts one request fewer at the instance the route names, never below zero,
      which has been used now; the route is out no more. */
  lemma ReleaseIs(f: Fleet, ticket: Ticket, id: Id, now: real)
    ensures var g := Step(f, Release(ticket, id, now));
            && g == f.(metadata := g.metadata, routes := g.routes)
            && g.metadata.Keys == f.metadata.Keys && g.metadata - {id} == f.metadata - {id}
            && (id in f.metadata ==>
                  && g.metadata[id] == f.metadata[id].(inflight := g.metadata[id].inflight, lastUsed := now)
                  && (f.metadata[id].inflight > 0 ==> g.metadata[id].inflight + 1 == f.metadata[id].inflight)
                  && (f.metadata[id].inflight == 0 ==> g.metadata[id].inflight == 0))
            && g.routes == (if ticket in f.routes && f.routes[ticket] == id then f.routes - {ticket} else f.routes)
  {
  }

  /** A decision tells the checkpoint a known instance serves. */
  lemma DecideIs(f: Fleet, id: Id, identity: string)
    requires Inv(f)
    ensures var g := Step(f, Decide(id, identity));
            && g == f.(metadata := g.metadata)
            && g.metadata == if id in f.metadata then f.metadata[id := f.metadata[id].(identity := Some(identity))]
                             else f.metadata
  {
    Known(f, id);
    hide Inv;
  }

  lemma ClearDoes(f: Fleet, workflow: string)
    requires workflow != ""
    ensures var g := Step(f, ClearWorkflow(workflow));
            && g == f.(affinity := g.affinity, demand := g.demand)
            && g.demand == D.ClearThese(f.demand, workflow, f.demand.pending.Keys)
            && (forall k: (string, Key) :: k in g.affinity <==> k in f.affinity && k.0 != workflow)
            && (forall k <- g.affinity :: g.affinity[k] == f.affinity[k])
  {
    hide D.ClearThese;
  }

  /** The workflow's requests and affinities go, and nothing else. */
  lemma ClearWorkflowIs(f: Fleet, workflow: string)
    requires D.Inv(f.demand) && workflow != ""
    ensures var g := Step(f, ClearWorkflow(workflow));
            && g == f.(affinity := g.affinity, demand := g.demand)
            && (forall k: (string, Key) :: k in g.affinity <==> k in f.affinity && k.0 != workflow)
            && (forall k <- g.affinity :: g.affinity[k] == f.affinity[k])
            && (forall key: Key, r: D.Request ::
                  r in D.Pending(g.demand, key) <==> r in D.Pending(f.demand, key) && r.0 != workflow)
  {
    D.ClearKeeps(f.demand, workflow, f.demand.pending.Keys);
    hide D.ClearThese, D.Inv, Step;
    ClearDoes(f, workflow);
    forall key: Key, r: D.Request
      ensures r in D.Pending(D.ClearThese(f.demand, workflow, f.demand.pending.Keys), key)
              <==> r in D.Pending(f.demand, key) && r.0 != workflow
    {
      if key !in f.demand.pending { assert D.Pending(f.demand, key) == {}; }
    }
  }
}
