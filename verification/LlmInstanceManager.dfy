/** The manager object itself: each method is one `with self.lock` region of
    `LlmInstanceManager` (maze/core/scheduler/llm_instance.py) over the dictionaries it
    updates, proved against the step of `InstanceFleet` it takes. */
module LlmInstanceManager {
  import opened Options
  import D = Demand
  import opened InstanceFleet

  class LlmInstanceManager {
    const maxRequestsPerInstance: nat
    var idToInstanceActor: map<Id, Actor>
    var idToState: map<Id, Status>
    var idToResourceDetail: map<Id, Detail>
    var idToInstanceMetadata: map<Id, Meta>
    var modelToInstances: map<Key, set<Id>>
    var workflowModelAffinity: map<(string, Key), Id>
    var idToScaleInClaim: set<Id>
    var modelAdmissionLimits: map<Key, nat>
    var pendingModelRequestIds: map<Key, set<D.Request>>
    var pendingRequestAnchors: map<Key, seq<(D.Request, D.Anchor)>>
    var pendingModelAnchors: map<Key, D.Anchor>
    var autoDeployByInstance: map<Id, Key>
    var deployingModelCounts: map<Key, nat>
    var born: nat      // numbers the actors Ray hands out
    ghost var routes: map<Ticket, Id>
    ghost var owners: map<Caller, Stop>
    ghost var confirmed: set<Actor>
    ghost var forgotten: set<Actor>

    ghost function Book(): D.Book
      reads this
    {
      D.Book(pendingModelRequestIds, pendingRequestAnchors, pendingModelAnchors,
             autoDeployByInstance, deployingModelCounts)
    }

    ghost function State(): Fleet
      reads this
    {
      Fleet(maxRequestsPerInstance, idToInstanceActor, idToState, idToResourceDetail,
                  idToInstanceMetadata, modelToInstances, workflowModelAffinity, idToScaleInClaim,
                  modelAdmissionLimits, Book(), born, routes, owners, confirmed, forgotten)
    }

    constructor (maxRequests: int)
      ensures State() == Start(if maxRequests < 1 then 1 else maxRequests) && Inv(State())
    {
      maxRequestsPerInstance := if maxRequests < 1 then 1 else maxRequests;
      idToInstanceActor, idToState, idToResourceDetail, idToInstanceMetadata := map[], map[], map[], map[];
      modelToInstances, workflowModelAffinity := map[], map[];
      idToScaleInClaim, modelAdmissionLimits := {}, map[];
      pendingModelRequestIds, pendingRequestAnchors, pendingModelAnchors := map[], map[], map[];
      autoDeployByInstance, deployingModelCounts := map[], map[];
      born, routes, owners, confirmed, forgotten := 0, map[], map[], {}, {};
      new;
      StartInv(maxRequestsPerInstance);
    }

    // ----- demand -----------------------------------------------------------

    method RefreshPendingAnchor(key: Key)
      modifies this`pendingModelAnchors
      ensures Book() == D.Refresh(old(Book()), key)
    {
      if key in pendingRequestAnchors && pendingRequestAnchors[key] != [] {
        pendingModelAnchors := pendingModelAnchors[key := D.Largest(pendingRequestAnchors[key])];
      } else {
        pendingModelAnchors := pendingModelAnchors - {key};
      }
    }

    method RecordModelDemand(key: Key, request: D.Request, anchor: D.Anchor) returns (waiting: nat)
      modifies this`pendingModelRequestIds, this`pendingRequestAnchors, this`pendingModelAnchors
      ensures Book() == D.DoRecord(old(Book()), key, request, anchor)
      ensures waiting == |D.Pending(Book(), key)|
    {
      var requests := if key in pendingModelRequestIds then pendingModelRequestIds[key] else {};
      pendingModelRequestIds := pendingModelRequestIds[key := requests + {request}];
      var anchors := if key in pendingRequestAnchors then pendingRequestAnchors[key] else [];
      pendingRequestAnchors := pendingRequestAnchors[key := D.Assign(anchors, request, anchor)];
      RefreshPendingAnchor(key);
      waiting := |requests + {request}|;
    }

    method SatisfyModelDemand(key: Key, request: D.Request)
      modifies this`pendingModelRequestIds, this`pendingRequestAnchors, this`pendingModelAnchors
      ensures Book() == D.DoSatisfy(old(Book()), key, request)
    {
      var requests := if key in pendingModelRequestIds then pendingModelRequestIds[key] else {};
      pendingModelRequestIds := pendingModelRequestIds[key := requests - {request}];
      var anchors := if key in pendingRequestAnchors then pendingRequestAnchors[key] else [];
      pendingRequestAnchors :=
        pendingRequestAnchors[key := D.Restrict(anchors, D.KeysOf(anchors) - {request})];
      RefreshPendingAnchor(key);
    }

    method MarkModelDeploying(key: Key, id: Option<Id>) returns (marked: bool)
      modifies this`autoDeployByInstance, this`deployingModelCounts
      ensures Book() == D.DoMark(old(Book()), key, id)
      ensures marked <==> !(id.Some? && id.value in old(autoDeployByInstance))
    {
      if id.Some? {
        if id.value in autoDeployByInstance { return false; }
        autoDeployByInstance := autoDeployByInstance[id.value := key];
      }
      var count := if key in deployingModelCounts then deployingModelCounts[key] else 0;
      deployingModelCounts := deployingModelCounts[key := count + 1];
      return true;
    }

    method ClearModelDeploying(target: D.Target) returns (cleared: bool)
      modifies this`autoDeployByInstance, this`deployingModelCounts
      ensures Book() == D.DoClear(old(Book()), target)
    {
      var key;
      if target.OfInstance? {
        if target.id !in autoDeployByInstance { return false; }
        key := autoDeployByInstance[target.id];
        autoDeployByInstance := autoDeployByInstance - {target.id};
      } else {
        key := target.key;
      }
      var count := if key in deployingModelCounts then deployingModelCounts[key] else 0;
      if count == 0 { return false; }
      deployingModelCounts := deployingModelCounts[key := count - 1];
      return true;
    }

    /** The same for the instance, seen from the whole manager. */
    method ClearDeployment(id: Id)
      modifies this`autoDeployByInstance, this`deployingModelCounts
      ensures State() == old(State()).(demand := D.DoClear(old(Book()), D.OfInstance(id)))
    {
      var cleared := ClearModelDeploying(D.OfInstance(id));
    }

    /** One model's turn of `clear_workflow_state`. */
    method ClearModelDemand(workflow: string, key: Key)
      modifies this`pendingModelRequestIds, this`pendingRequestAnchors, this`pendingModelAnchors
      ensures Book() == D.ClearOne(old(Book()), workflow, key)
    {
      var requests := if key in pendingModelRequestIds then pendingModelRequestIds[key] else {};
      var anchors := if key in pendingRequestAnchors then pendingRequestAnchors[key] else [];
      var rest := D.Without(requests, workflow);
      pendingModelRequestIds := pendingModelRequestIds[key := rest];
      pendingRequestAnchors := pendingRequestAnchors[key := D.Restrict(anchors, rest)];
      RefreshPendingAnchor(key);
    }

    method ClearDemandOf(workflow: string)
      modifies this`pendingModelRequestIds, this`pendingRequestAnchors, this`pendingModelAnchors
      ensures Book() == D.ClearThese(old(Book()), workflow, old(pendingModelRequestIds).Keys)
    {
      ghost var b, done: set<Key> := Book(), {};
      var keys := pendingModelRequestIds.Keys;
      D.ClearNone(b, workflow);
      hide D.ClearThese, D.ClearOne, Book;
      while keys != {}
        invariant keys !! done && keys + done == old(pendingModelRequestIds).Keys
        invariant Book() == D.ClearThese(b, workflow, done)
        decreases |keys|
      {
        var key :| key in keys;
        D.ClearOneMore(b, workflow, done, key);
        ClearModelDemand(workflow, key);
        keys, done := keys - {key}, done + {key};
      }
      assert done == old(pendingModelRequestIds).Keys;
    }

    // ----- registration and routing -----------------------------------------

    method SetStatus(id: Id, status: Status)
      modifies this`idToState
      ensures State() == old(State()).(states := old(idToState)[id := status])
    {
      idToState := idToState[id := status];
    }

    method SetMetadata(id: Id, metadata: Meta)
      modifies this`idToInstanceMetadata
      ensures State() == old(State()).(metadata := old(idToInstanceMetadata)[id := metadata])
    {
      idToInstanceMetadata := idToInstanceMetadata[id := metadata];
    }

    method AddToIndex(key: Key, id: Id)
      modifies this`modelToInstances
      ensures State() == old(State()).(routing := old(modelToInstances)[key := Indexed(old(State()), key) + {id}])
    {
      var listed := if key in modelToInstances then modelToInstances[key] else {};
      modelToInstances := modelToInstances[key := listed + {id}];
    }

    method RemoveFromIndex(id: Id)
      modifies this`modelToInstances
      ensures State() == old(State()).(routing := Unlisted(old(modelToInstances), idToInstanceMetadata, id))
    {
      if id in idToInstanceMetadata && idToInstanceMetadata[id].key in modelToInstances {
        var key := idToInstanceMetadata[id].key;
        modelToInstances := modelToInstances[key := modelToInstances[key] - {id}];
      }
    }

    method DropAffinitiesTo(id: Id)
      modifies this`workflowModelAffinity
      ensures State() == old(State()).(affinity := Unbound(old(workflowModelAffinity), id))
    {
      var keys := workflowModelAffinity.Keys;
      while keys != {}
        invariant keys <= old(workflowModelAffinity).Keys
        invariant workflowModelAffinity == map k <- old(workflowModelAffinity)
                    | k in keys || old(workflowModelAffinity)[k] != id :: old(workflowModelAffinity)[k]
        decreases |keys|
      {
        var key :| key in keys;
        keys := keys - {key};
        if workflowModelAffinity[key] == id {
          workflowModelAffinity := workflowModelAffinity - {key};
        }
      }
      assert workflowModelAffinity == Unbound(old(workflowModelAffinity), id);
    }

    /** `_remove_routing_registration`. */
    method RemoveRoutingRegistration(id: Id)
      modifies this`modelToInstances, this`workflowModelAffinity
      ensures State() == Unroute(old(State()), id)
    {
      RemoveFromIndex(id);
      DropAffinitiesTo(id);
    }

    /** `_register_starting_instance`; false is the error of an id already registered. */
    method RegisterStartingInstance(id: Id, detail: Detail) returns (ok: bool)
      modifies this`idToInstanceActor, this`idToResourceDetail, this`idToState, this`born
      ensures State() == DoRegister(old(State()), id, detail)
      ensures ok <==> id !in old(idToInstanceActor)
    {
      if id in idToInstanceActor { return false; }
      SetStatus(id, Launching);
      idToResourceDetail := idToResourceDetail[id := detail];
      idToInstanceActor := idToInstanceActor[id := born];
      born := born + 1;
      return true;
    }

    /** `_mark_ready` and the registration it makes: the load of an instance that was
        registered before survives, and its deployment mark is cleared. */
    method MarkReady(id: Id, actor: Actor, now: real) returns (ok: bool)
      modifies this`idToState, this`idToInstanceMetadata, this`modelToInstances,
               this`autoDeployByInstance, this`deployingModelCounts
      ensures State() == DoMarkReady(old(State()), id, actor, now)
      ensures ok <==> BecomesReady(old(State()), id, actor)
    {
      if id !in idToInstanceActor || idToInstanceActor[id] != actor { return false; }
      if id !in idToState || idToState[id] != Launching { return false; }
      if id !in idToResourceDetail { return false; }
      var key := idToResourceDetail[id].key;
      var limit := if key in modelAdmissionLimits then modelAdmissionLimits[key] else maxRequestsPerInstance;
      var metadata := Meta(key, 0, limit, 0.0, now, None);
      if id in idToInstanceMetadata {
        metadata := idToInstanceMetadata[id].(key := key, limit := limit);
      }
      assert metadata == NewMeta(State(), id, key, now);
      hide NewMeta, D.DoClear, State, Indexed;
      SetStatus(id, Ready);
      SetMetadata(id, metadata);
      AddToIndex(key, id);
      ClearDeployment(id);
      return true;
    }

    /** The locked end of a failed runtime probe. */
    method MarkUnhealthy(id: Id, actor: Actor) returns (marked: bool)
      modifies this`idToState, this`modelToInstances, this`workflowModelAffinity
      ensures State() == DoMarkUnhealthy(old(State()), id, actor)
    {
      if id !in idToInstanceActor || idToInstanceActor[id] != actor { return false; }
      if id !in idToState || idToState[id] != Ready { return false; }
      SetStatus(id, Unhealthy);
      RemoveRoutingRegistration(id);
      return true;
    }

    method DropAffinitiesOf(workflow: string)
      modifies this`workflowModelAffinity
      ensures State() == old(State()).(affinity :=
                (map k <- old(workflowModelAffinity) | k.0 != workflow :: old(workflowModelAffinity)[k]))
    {
      var keys := workflowModelAffinity.Keys;
      while keys != {}
        invariant keys <= old(workflowModelAffinity).Keys
        invariant workflowModelAffinity == map k <- old(workflowModelAffinity)
                    | k in keys || k.0 != workflow :: old(workflowModelAffinity)[k]
        decreases |keys|
      {
        var key :| key in keys;
        keys := keys - {key};
        if key.0 == workflow { workflowModelAffinity := workflowModelAffinity - {key}; }
      }
      assert workflowModelAffinity
             == map k <- old(workflowModelAffinity) | k.0 != workflow :: old(workflowModelAffinity)[k];
    }

    /** `clear_workflow_state`: the workflow's requests and affinities go. */
    method ClearWorkflowState(workflow: string)
      modifies this`pendingModelRequestIds, this`pendingRequestAnchors, this`pendingModelAnchors,
               this`workflowModelAffinity
      ensures State() == DoClearWorkflow(old(State()), workflow)
    {
      if workflow == "" { return; }
      hide D.ClearThese;
      ClearDemandOf(workflow);
      DropAffinitiesOf(workflow);
    }

    // ----- scale-in claims and stops ----------------------------------------

    /** The state change and claim shared by a cancelled start and an idle scale-in. */
    method WithdrawForStop(id: Id)
      modifies this`idToState, this`modelToInstances, this`workflowModelAffinity, this`idToScaleInClaim
      ensures State() == WithdrawClaimed(old(State()), id)
    {
      SetStatus(id, Stopping);
      RemoveRoutingRegistration(id);
      idToScaleInClaim := idToScaleInClaim + {id};
    }

    /** The part of `request_start_cancellation` for an instance that has its actor. */
    method RequestStartCancellation(id: Id) returns (state: Option<Status>)
      modifies this`idToState, this`modelToInstances, this`workflowModelAffinity, this`idToScaleInClaim
      ensures State() == DoRequestCancel(old(State()), id)
      ensures state == StatusOf(old(State()), id)
    {
      if id !in idToState { return None; }
      state := Some(idToState[id]);
      if state == Some(Launching) || state == Some(Ready) {
        WithdrawForStop(id);
      }
    }

    method ClaimLruScaleIn(id: Id, idle: Idle) returns (claimed: bool)
      modifies this`idToState, this`modelToInstances, this`workflowModelAffinity, this`idToScaleInClaim
      ensures State() == DoClaimScaleIn(old(State()), id, idle)
      ensures claimed <==> Claimable(old(State()), id, idle)
    {
      if id !in idToState || idToState[id] != Ready { return false; }
      if id !in idToInstanceMetadata || idToInstanceMetadata[id].inflight != 0 { return false; }
      var m := idToInstanceMetadata[id];
      if idle.noPending && m.key in pendingModelRequestIds && pendingModelRequestIds[m.key] != {} {
        return false;
      }
      var since := if m.lastUsed != 0.0 then m.lastUsed else if m.created != 0.0 then m.created else idle.now;
      if idle.expectedSince.Some? && since != idle.expectedSince.value { return false; }
      if idle.now - since < idle.seconds { return false; }
      WithdrawForStop(id);
      return true;
    }

    method CancelLruScaleInClaim(id: Id) returns (restored: bool)
      modifies this`idToScaleInClaim, this`idToState, this`modelToInstances
      ensures State() == DoCancelClaim(old(State()), id)
      ensures restored ==> id in idToState && idToState[id] == Ready && id !in idToScaleInClaim
    {
      if id !in idToScaleInClaim || id !in idToState || idToState[id] != Stopping { return false; }
      if id !in idToInstanceMetadata || id !in idToResourceDetail { return false; }
      var key := idToInstanceMetadata[id].key;
      idToScaleInClaim := idToScaleInClaim - {id};
      SetStatus(id, Ready);
      AddToIndex(key, id);
      return true;
    }

    /** The dictionaries that `finalize_stopped_instance` empties besides routing. */
    method PopRecords(id: Id)
      modifies this`idToState, this`idToInstanceActor, this`idToResourceDetail
      ensures State() == old(State()).(states := old(idToState) - {id}, actors := old(idToInstanceActor) - {id},
                                       details := old(idToResourceDetail) - {id})
    {
      idToInstanceActor := idToInstanceActor - {id};
      idToResourceDetail := idToResourceDetail - {id};
      idToState := idToState - {id};
    }

    method DropClaim(id: Id)
      modifies this`idToScaleInClaim
      ensures State() == old(State()).(claims := old(idToScaleInClaim) - {id})
    {
      idToScaleInClaim := idToScaleInClaim - {id};
    }

    method PopMetadata(id: Id)
      modifies this`idToInstanceMetadata, this`forgotten
      ensures State() == old(State()).(metadata := old(idToInstanceMetadata) - {id},
                                       forgotten := old(forgotten) + ActorOf(old(State()), id))
    {
      forgotten := forgotten + ActorOf(State(), id);
      idToInstanceMetadata := idToInstanceMetadata - {id};
    }

    /** The state must be `Stopped` and the actor the expected one; otherwise nothing
        changes, and a wrong state is an error. */
    method FinalizeStoppedInstance(id: Id, expected: Option<Actor>) returns (forgot: bool)
      requires Inv(State())
      modifies this
      ensures State() == DoFinalize(old(State()), id, expected)
      ensures forgot <==> IsExpected(old(State()), id, expected) && InState(old(State()), id, Stopped)
    {
      if expected.Some? && (id !in idToInstanceActor || idToInstanceActor[id] != expected.value) {
        return false;
      }
      if id !in idToState || idToState[id] != Stopped { return false; }
      hide State, Inv, D.DoClear, Unlisted, Unbound, ActorOf;
      RemoveRoutingRegistration(id);
      PopMetadata(id);
      PopRecords(id);
      ClearDeployment(id);
      DropClaim(id);
      return true;
    }

    method BecomeOwner(caller: Caller, id: Id)
      requires id in idToInstanceActor
      modifies this`owners
      ensures State() == old(State()).(owners := old(owners)[caller := Stop(id, idToInstanceActor[id])])
    {
      owners := owners[caller := Stop(id, idToInstanceActor[id])];
    }

    /** Someone began the stop already: its claim, if there is one, passes to the caller. */
    method TakeScaleInClaim(caller: Caller, id: Id) returns (owner: bool)
      requires id in idToInstanceActor
      modifies this`idToScaleInClaim, this`owners
      ensures State() == TakeClaim(old(State()), caller, id)
      ensures owner <==> id in old(idToScaleInClaim)
    {
      owner := id in idToScaleInClaim;
      if owner {
        DropClaim(id);
        BecomeOwner(caller, id);
      }
    }

    method OwnStop(caller: Caller, id: Id)
      requires id in idToInstanceActor
      modifies this`idToState, this`modelToInstances, this`workflowModelAffinity, this`owners
      ensures State() == WithdrawOwned(old(State()), caller, id)
    {
      SetStatus(id, Stopping);
      RemoveRoutingRegistration(id);
      BecomeOwner(caller, id);
    }

    /** First locked region of `stop_llm_instance`; true makes the caller the owner. */
    method BeginStop(caller: Caller, id: Id, expected: Option<Actor>, finalize: bool) returns (owner: bool)
      requires Inv(State()) && caller !in owners
      modifies this
      ensures State() == DoStopBegin(old(State()), caller, id, expected, finalize)
      ensures owner <==> IsExpected(old(State()), id, expected) && id in old(idToState)
                         && old(idToState)[id] != Stopped
                         && (old(idToState)[id] == Stopping ==> id in old(idToScaleInClaim))
    {
      if expected.Some? && (id !in idToInstanceActor || idToInstanceActor[id] != expected.value) {
        return false;
      }
      if id !in idToResourceDetail { return false; }
      assert id in idToState && id in idToInstanceActor;
      hide Inv;
      if idToState[id] == Stopped {
        if finalize {
          var forgot := FinalizeStoppedInstance(id, Some(idToInstanceActor[id]));
        }
        return false;
      }
      hide State, TakeClaim, WithdrawOwned;
      if idToState[id] == Stopping {
        owner := TakeScaleInClaim(caller, id);
      } else {
        OwnStop(caller, id);
        owner := true;
      }
    }

    method RecordOutcome(own: Stop, outcome: Status)
      modifies this`idToState
      ensures State() == old(State()).(states := StatesAfter(old(State()), own, outcome))
    {
      if own.id in idToResourceDetail && own.id in idToInstanceActor && idToInstanceActor[own.id] == own.actor {
        idToState := idToState[own.id := outcome];
      }
    }

    method GiveUpOwnership(caller: Caller, own: Stop, killed: bool, cleaned: bool)
      modifies this`owners, this`confirmed
      ensures State() == old(State()).(owners := old(State()).owners - {caller},
                                       confirmed := old(State()).confirmed + ConfirmedBy(own, killed, cleaned))
    {
      owners := owners - {caller};
      confirmed := confirmed + ConfirmedBy(own, killed, cleaned);
    }

    /** The owner returns from the control transaction with what it confirmed in time;
        `own` are the id and the actor it has kept since it became the owner. */
    method EndStop(caller: Caller, own: Stop, killed: bool, cleaned: bool, inTime: bool) returns (stopped: bool)
      requires caller in State().owners && State().owners[caller] == own
      modifies this`idToState, this`owners, this`confirmed
      ensures State() == DoStopEnd(old(State()), caller, killed, cleaned, inTime)
      ensures stopped <==> killed && cleaned && inTime
    {
      hide Inv, State, StatesAfter, ConfirmedBy;
      stopped := killed && cleaned && inTime;
      RecordOutcome(own, if stopped then Stopped else CleanupPending);
      GiveUpOwnership(caller, own, killed, cleaned);
    }

    // ----- routing ----------------------------------------------------------

    /** The least of the available instances, one comparison at a time. */
    method LeastLoaded(available: set<Id>) returns (best: Id)
      requires available != {} && available <= idToInstanceMetadata.Keys
      ensures IsBest(State(), available, best)
      ensures best in available
      ensures forall other <- available ::
                var m, n := idToInstanceMetadata[best], idToInstanceMetadata[other];
                && m.inflight <= n.inflight
                && (m.inflight == n.inflight ==> m.lastUsed <= n.lastUsed)
                && (m.inflight == n.inflight && m.lastUsed == n.lastUsed ==> best <= other)
    {
      best :| best in available;
      var rest := available - {best};
      while rest != {}
        invariant rest <= available && best in available - rest
        invariant forall other <- available - rest :: AtMost(State(), best, other)
        decreases |rest|
      {
        var id :| id in rest;
        var m, n := idToInstanceMetadata[id], idToInstanceMetadata[best];
        if m.inflight < n.inflight
           || (m.inflight == n.inflight
               && (m.lastUsed < n.lastUsed || (m.lastUsed == n.lastUsed && id <= best))) {
          AtMostIsTransitive(State(), id, best, available - rest);
          best := id;
        }
        rest := rest - {id};
      }
      forall other <- available
        ensures var m, n := idToInstanceMetadata[best], idToInstanceMetadata[other];
                && m.inflight <= n.inflight
                && (m.inflight == n.inflight ==> m.lastUsed <= n.lastUsed)
                && (m.inflight == n.inflight && m.lastUsed == n.lastUsed ==> best <= other)
      {
        assert AtMost(State(), best, other);
      }
    }

    /** The selection of `route_model_request`. */
    method SelectInstance(ask: Ask) returns (selected: Option<Id>, affinityHit: bool)
      ensures selected == Selected(State(), ask)
      ensures affinityHit <==> AffinityHit(State(), ask)
    {
      var indexed := if ask.key in modelToInstances then modelToInstances[ask.key] else {};
      var candidates := set id <- indexed
        | id in idToInstanceMetadata && id in idToState && idToState[id] == Ready
          && id in idToResourceDetail && idToResourceDetail[id].gpuMem >= ask.anchor.memory
          && (ask.identity.None? || idToInstanceMetadata[id].identity in {None, ask.identity});
      assert forall id :: id in candidates <==> Candidate(State(), ask, id);
      var workflowKey := (ask.workflow, ask.key);
      if workflowKey in workflowModelAffinity && workflowModelAffinity[workflowKey] in candidates {
        var mine := workflowModelAffinity[workflowKey];
        if idToInstanceMetadata[mine].inflight < idToInstanceMetadata[mine].limit {
          return Some(mine), true;
        }
      }
      var available := set id <- candidates | idToInstanceMetadata[id].inflight < idToInstanceMetadata[id].limit;
      assert available == Available(State(), ask);
      if available == {} { return None, false; }
      var best := LeastLoaded(available);
      BestIsUnique(State(), available, best, Best(State(), available));
      return Some(best), false;
    }

    method BindAffinity(ask: Ask, id: Id, affinityHit: bool)
      requires affinityHit <==> AffinityHit(State(), ask)
      modifies this`workflowModelAffinity
      ensures State() == old(State()).(affinity := AffinityAfter(old(State()), ask, id))
    {
      if !affinityHit && ask.workflow != "" {
        workflowModelAffinity := workflowModelAffinity[(ask.workflow, ask.key) := id];
      }
    }

    method IssueTicket(ticket: Ticket, id: Id)
      modifies this`routes
      ensures State() == old(State()).(routes := old(routes)[ticket := id])
    {
      routes := routes[ticket := id];
    }

    method CountDemand(ask: Ask, routed: bool)
      modifies this`pendingModelRequestIds, this`pendingRequestAnchors, this`pendingModelAnchors
      ensures State() == old(State()).(demand :=
                if routed then D.DoSatisfy(old(Book()), ask.key, RequestOf(ask))
                else D.DoRecord(old(Book()), ask.key, RequestOf(ask), ask.anchor))
    {
      if routed {
        SatisfyModelDemand(ask.key, RequestOf(ask));
      } else {
        var waiting := RecordModelDemand(ask.key, RequestOf(ask), ask.anchor);
      }
    }

    /** `route_model_request`; `ticket` names the route for its release. */
    method RouteModelRequest(ticket: Ticket, ask: Ask, now: real) returns (routed: Option<Id>)
      requires ticket !in routes
      modifies this
      ensures State() == DoRoute(old(State()), ticket, ask, now)
      ensures routed == Selected(old(State()), ask)
      ensures routed.Some? ==> Candidate(old(State()), ask, routed.value) && HasRoom(old(State()), routed.value)
    {
      var affinityHit;
      routed, affinityHit := SelectInstance(ask);
      ghost var f := State();
      if routed.None? {
        CountDemand(ask, false);
        return;
      }
      var id := routed.value;
      assert id in Available(f, ask);
      var m := idToInstanceMetadata[id];
      hide State, AffinityHit, AffinityAfter, D.DoSatisfy, D.DoRecord, Candidate, RequestOf;
      BindAffinity(ask, id, affinityHit);
      SetMetadata(id, m.(inflight := m.inflight + 1, lastUsed := now));
      CountDemand(ask, true);
      IssueTicket(ticket, id);
    }

    ghost method ReturnTicket(ticket: Ticket, id: Id)
      modifies this`routes
      ensures State() == old(State()).(routes := Returned(old(routes), ticket, id))
    {
      routes := Returned(routes, ticket, id);
    }

    /** `release_model_route`: the id in the route decides, whether the route is still out
        or not; a route of a forgotten instance changes no count, and no route is none. */
    method ReleaseModelRoute(ghost ticket: Ticket, route: Option<Id>, now: real)
      modifies this`idToInstanceMetadata, this`routes
      ensures State() == if route.None? then old(State()) else DoRelease(old(State()), ticket, route.value, now)
    {
      if route.None? { return; }
      var id := route.value;
      if id in idToInstanceMetadata {
        var m := idToInstanceMetadata[id];
        idToInstanceMetadata :=
          idToInstanceMetadata[id := m.(inflight := if m.inflight - 1 > 0 then m.inflight - 1 else 0, lastUsed := now)];
      }
      hide Returned;
      ReturnTicket(ticket, id);
    }

    /** False means the instance is drained; none is the error of an instance that is not
        ready. */
    method PrepareMemoryRecovery(id: Id) returns (shared: Option<bool>)
      modifies this`idToInstanceMetadata, this`modelAdmissionLimits, this`idToState,
               this`modelToInstances, this`workflowModelAffinity
      ensures State() == DoPrepareRecovery(old(State()), id)
      ensures shared.Some? <==> id in old(idToInstanceMetadata) && id in old(idToState) && old(idToState)[id] == Ready
      ensures shared.Some? ==> (shared.value <==> old(idToInstanceMetadata)[id].inflight > 0)
    {
      if id !in idToInstanceMetadata || id !in idToState || idToState[id] != Ready { return None; }
      var m := idToInstanceMetadata[id];
      if m.inflight > 0 {
        idToInstanceMetadata := idToInstanceMetadata[id := m.(limit := 1)];
        modelAdmissionLimits := modelAdmissionLimits[m.key := 1];
        return Some(true);
      }
      SetStatus(id, Draining);
      RemoveRoutingRegistration(id);
      return Some(false);
    }
  }

  lemma AtMostIsTransitive(f: Fleet, a: Id, b: Id, ids: set<Id>)
    requires {a, b} + ids <= f.metadata.Keys && AtMost(f, a, b)
    requires forall c <- ids :: AtMost(f, b, c)
    ensures forall c <- ids :: AtMost(f, a, c)
  {
    forall c <- ids ensures AtMost(f, a, c) {
      assert AtMost(f, b, c);
    }
  }

  lemma BestIsUnique(f: Fleet, ids: set<Id>, a: Id, b: Id)
    requires ids <= f.metadata.Keys && IsBest(f, ids, a) && IsBest(f, ids, b)
    ensures a == b
  {
    assert AtMost(f, a, b) && AtMost(f, b, a);
  }
}
