/** The life of a model instance after its actor exists: readiness, routing, release,
    recovery, scale-in claims, stop ownership and forgetting
    (maze/core/scheduler/llm_instance.py: `LlmInstanceManager`).

    Every `with self.lock` region is one step; any number of threads interleave them.
    Between `StopBegin` and `StopEnd` the owner of a stop runs the control transaction
    without the lock. */
module InstanceFleet {
  import opened Options
  import D = Demand

  type Id = D.Id
  type Key = D.Key
  type Actor = nat      // an actor handle, in order of creation
  type Ticket = nat     // a route handed to a caller, by a name no other route out has
  type Caller = nat     // a thread inside `stop_llm_instance`

  datatype Status = Launching | Ready | Unhealthy | Draining | Stopping | Stopped | CleanupPending

  datatype Detail = Detail(key: Key, gpuMem: nat)

  /** `limit` is the admission limit; time 0.0 stands for "never". */
  datatype Meta = Meta(
    key: Key, inflight: nat, limit: nat, lastUsed: real, created: real, identity: Option<string>)

  datatype Stop = Stop(id: Id, actor: Actor)

  datatype Fleet = Fleet(
    max: nat,                             // max_requests_per_instance
    actors: map<Id, Actor>,
    states: map<Id, Status>,
    details: map<Id, Detail>,
    metadata: map<Id, Meta>,
    routing: map<Key, set<Id>>,           // model_to_instances
    affinity: map<(string, Key), Id>,     // workflow_model_affinity
    claims: set<Id>,                      // id_to_scale_in_claim
    limits: map<Key, nat>,                // model_admission_limits
    demand: D.Book,
    born: nat,                            // actors created so far
    routes: map<Ticket, Id>,              // history: routes handed out, not yet released
    owners: map<Caller, Stop>,            // history: callers running a control transaction
    confirmed: set<Actor>,                // history: termination and cleanup confirmed
    forgotten: set<Actor>)                // history

  /** One routing request; `workflow` is empty when there is none. */
  datatype Ask = Ask(
    workflow: string, task: Option<string>, key: Key, anchor: D.Anchor, identity: Option<string>)

  datatype Idle = Idle(expectedSince: Option<real>, now: real, seconds: real, noPending: bool)

  datatype Action =
    | Register(id: Id, detail: Detail)
    | MarkReady(id: Id, actor: Actor, now: real)
    | MarkUnhealthy(id: Id, actor: Actor)
    | RequestCancel(id: Id)
    | ClaimScaleIn(id: Id, idle: Idle)
    | CancelClaim(id: Id)
    | StopBegin(caller: Caller, id: Id, expected: Option<Actor>, finalize: bool)
    | StopEnd(caller: Caller, killed: bool, cleaned: bool, inTime: bool)
    | Finalize(id: Id, expected: Option<Actor>)
    | Route(ticket: Ticket, ask: Ask, now: real)
    | Release(ticket: Ticket, id: Id, now: real)
    | PrepareRecovery(id: Id)
    | Decide(id: Id, identity: string)
    | ClearWorkflow(workflow: string)
    | DemandStep(demand: D.Action)

  function Start(max: nat): Fleet {
    Fleet(max, map[], map[], map[], map[], map[], map[], {}, map[], D.EMPTY, 0, map[], map[], {}, {})
  }

  function Indexed(f: Fleet, key: Key): set<Id> {
    if key in f.routing then f.routing[key] else {}
  }

  predicate InState(f: Fleet, id: Id, status: Status) {
    id in f.states && f.states[id] == status
  }

  function Unlisted(routing: map<Key, set<Id>>, metadata: map<Id, Meta>, id: Id): map<Key, set<Id>> {
    if id !in metadata || metadata[id].key !in routing then routing
    else routing[metadata[id].key := routing[metadata[id].key] - {id}]
  }

  function Unbound(affinity: map<(string, Key), Id>, id: Id): map<(string, Key), Id> {
    map k <- affinity | affinity[k] != id :: affinity[k]
  }

  /** `_remove_routing_registration`. */
  function Unroute(f: Fleet, id: Id): Fleet {
    f.(routing := Unlisted(f.routing, f.metadata, id), affinity := Unbound(f.affinity, id))
  }

  /** Leaves routing for another state. */
  function Leave(f: Fleet, id: Id, status: Status): (g: Fleet)
    ensures g.states == f.states[id := status]
    ensures g.actors == f.actors && g.metadata == f.metadata && g.routes == f.routes
  {
    Unroute(f.(states := f.states[id := status]), id)
  }

  // ----- life and death -----------------------------------------------------

  /** `_register_starting_instance`. */
  function DoRegister(f: Fleet, id: Id, detail: Detail): (g: Fleet)
    ensures g.max == f.max
    ensures g.metadata == f.metadata && g.routes == f.routes
  {
    if id in f.actors then f
    else f.(actors := f.actors[id := f.born], born := f.born + 1,
            states := f.states[id := Launching], details := f.details[id := detail])
  }

  /** The metadata `register_instance` writes. */
  function NewMeta(f: Fleet, id: Id, key: Key, now: real): Meta {
    var limit := if key in f.limits then f.limits[key] else f.max;
    if id in f.metadata then f.metadata[id].(key := key, limit := limit)
    else Meta(key, 0, limit, 0.0, now, None)
  }

  /** `_mark_ready`, with the `register_instance` it calls. */
  function DoMarkReady(f: Fleet, id: Id, actor: Actor, now: real): (g: Fleet)
    ensures g.max == f.max
  {
    if id in f.actors && f.actors[id] == actor && InState(f, id, Launching) && id in f.details then
      var key := f.details[id].key;
      f.(metadata := f.metadata[id := NewMeta(f, id, key, now)],
         states := f.states[id := Ready],
         routing := f.routing[key := Indexed(f, key) + {id}],
         demand := D.DoClear(f.demand, D.OfInstance(id)))
    else f
  }

  function DoMarkUnhealthy(f: Fleet, id: Id, actor: Actor): (g: Fleet)
    ensures g.max == f.max
    ensures g.actors == f.actors && g.metadata == f.metadata && g.routes == f.routes
  {
    if id in f.actors && f.actors[id] == actor && InState(f, id, Ready)
    then Leave(f, id, Unhealthy) else f
  }

  /** Leaves routing for a stop that the next stopping caller will own. */
  function WithdrawClaimed(f: Fleet, id: Id): (g: Fleet)
    ensures g.states == f.states[id := Stopping]
    ensures g.actors == f.actors && g.metadata == f.metadata && g.routes == f.routes
  {
    Leave(f, id, Stopping).(claims := f.claims + {id})
  }

  function DoRequestCancel(f: Fleet, id: Id): (g: Fleet)
    ensures g.max == f.max
    ensures g.actors == f.actors && g.metadata == f.metadata && g.routes == f.routes
  {
    if InState(f, id, Launching) || InState(f, id, Ready) then WithdrawClaimed(f, id) else f
  }

  function IdleSince(m: Meta, now: real): real {
    if m.lastUsed != 0.0 then m.lastUsed else if m.created != 0.0 then m.created else now
  }

  predicate Claimable(f: Fleet, id: Id, idle: Idle) {
    && InState(f, id, Ready) && id in f.metadata && f.metadata[id].inflight == 0
    && (idle.noPending ==> D.Pending(f.demand, f.metadata[id].key) == {})
    && (idle.expectedSince.Some? ==> idle.expectedSince.value == IdleSince(f.metadata[id], idle.now))
    && idle.now - IdleSince(f.metadata[id], idle.now) >= idle.seconds
  }

  /** `claim_lru_scale_in`. */
  function DoClaimScaleIn(f: Fleet, id: Id, idle: Idle): (g: Fleet)
    ensures g.max == f.max
    ensures g.actors == f.actors && g.metadata == f.metadata && g.routes == f.routes
  {
    if Claimable(f, id, idle) then WithdrawClaimed(f, id) else f
  }

  /** `cancel_lru_scale_in_claim`. */
  function DoCancelClaim(f: Fleet, id: Id): (g: Fleet)
    ensures g.max == f.max
    ensures g.actors == f.actors && g.metadata == f.metadata && g.routes == f.routes
  {
    if id in f.claims && InState(f, id, Stopping) && id in f.metadata && id in f.details then
      var key := f.metadata[id].key;
      f.(claims := f.claims - {id}, states := f.states[id := Ready],
         routing := f.routing[key := Indexed(f, key) + {id}])
    else f
  }

  function ActorOf(f: Fleet, id: Id): set<Actor> {
    if id in f.actors then {f.actors[id]} else {}
  }

  function Forget(f: Fleet, id: Id): (g: Fleet)
    ensures g.max == f.max
    ensures g.states == f.states - {id}
    ensures g.actors == f.actors - {id} && g.metadata == f.metadata - {id} && g.routes == f.routes
  {
    var g := Unroute(f, id);
    g.(actors := g.actors - {id}, states := g.states - {id}, details := g.details - {id},
       metadata := g.metadata - {id}, claims := g.claims - {id},
       demand := D.DoClear(g.demand, D.OfInstance(id)),
       forgotten := f.forgotten + ActorOf(f, id))
  }

  predicate IsExpected(f: Fleet, id: Id, expected: Option<Actor>) {
    expected.Some? ==> id in f.actors && f.actors[id] == expected.value
  }

  /** A stop begins without a claim: the caller owns it. */
  function WithdrawOwned(f: Fleet, caller: Caller, id: Id): (g: Fleet)
    requires id in f.actors
    ensures g.states == f.states[id := Stopping]
    ensures g.actors == f.actors && g.metadata == f.metadata && g.routes == f.routes
  {
    Leave(f, id, Stopping).(owners := f.owners[caller := Stop(id, f.actors[id])])
  }

  /** The claim becomes the caller's ownership; without one another caller is at work. */
  function TakeClaim(f: Fleet, caller: Caller, id: Id): (g: Fleet)
    requires id in f.actors
    ensures g.states == f.states
    ensures g.actors == f.actors && g.metadata == f.metadata && g.routes == f.routes
  {
    if id in f.claims
    then f.(claims := f.claims - {id}, owners := f.owners[caller := Stop(id, f.actors[id])])
    else f
  }

  /** First locked region of `stop_llm_instance`. */
  function DoStopBegin(f: Fleet, caller: Caller, id: Id, expected: Option<Actor>, finalize: bool): (g: Fleet)
    ensures g.max == f.max
  {
    if caller in f.owners || !IsExpected(f, id, expected) || id !in f.states || id !in f.actors then f
    else if f.states[id] == Stopped then (if finalize then Forget(f, id) else f)
    else if f.states[id] == Stopping then TakeClaim(f, caller, id)
    else WithdrawOwned(f, caller, id)
  }

  /** The control transaction succeeded when it confirmed both the actor's termination
      and the process cleanup before the deadline. */
  function Outcome(killed: bool, cleaned: bool, inTime: bool): Status {
    if killed && cleaned && inTime then Stopped else CleanupPending
  }

  function ConfirmedBy(own: Stop, killed: bool, cleaned: bool): set<Actor> {
    if killed && cleaned then {own.actor} else {}
  }

  /** The outcome is recorded only while the instance still has the actor. */
  function StatesAfter(f: Fleet, own: Stop, outcome: Status): map<Id, Status> {
    if own.id in f.details && own.id in f.actors && f.actors[own.id] == own.actor
    then f.states[own.id := outcome] else f.states
  }

  /** The locked regions after the control transaction. */
  function DoStopEnd(f: Fleet, caller: Caller, killed: bool, cleaned: bool, inTime: bool): (g: Fleet)
    ensures g.max == f.max
    ensures g.actors == f.actors && g.metadata == f.metadata && g.routes == f.routes
  {
    if caller !in f.owners then f
    else
      var own := f.owners[caller];
      f.(owners := f.owners - {caller},
         confirmed := f.confirmed + ConfirmedBy(own, killed, cleaned),
         states := StatesAfter(f, own, Outcome(killed, cleaned, inTime)))
  }

  /** `finalize_stopped_instance`; it raises in any state but `Stopped`. */
  function DoFinalize(f: Fleet, id: Id, expected: Option<Actor>): (g: Fleet)
    ensures g.max == f.max
  {
    if IsExpected(f, id, expected) && InState(f, id, Stopped) then Forget(f, id) else f
  }

  // ----- routing ------------------------------------------------------------

  predicate Candidate(f: Fleet, ask: Ask, id: Id) {
    && id in Indexed(f, ask.key) && id in f.metadata && InState(f, id, Ready)
    && id in f.details && f.details[id].gpuMem >= ask.anchor.memory
    && (ask.identity.None? || f.metadata[id].identity in {None, ask.identity})
  }

  predicate HasRoom(f: Fleet, id: Id) {
    id in f.metadata && f.metadata[id].inflight < f.metadata[id].limit
  }

  /** The workflow's own instance, if it is a candidate below its limit. */
  predicate AffinityHit(f: Fleet, ask: Ask) {
    && (ask.workflow, ask.key) in f.affinity
    && Candidate(f, ask, f.affinity[(ask.workflow, ask.key)])
    && HasRoom(f, f.affinity[(ask.workflow, ask.key)])
  }

  function Available(f: Fleet, ask: Ask): set<Id> {
    set id <- Indexed(f, ask.key) | Candidate(f, ask, id) && HasRoom(f, id)
  }

  /** Fewest requests in flight, then least recently used, then smallest id. */
  predicate AtMost(f: Fleet, a: Id, b: Id)
    requires a in f.metadata && b in f.metadata
  {
    var x, y := f.metadata[a], f.metadata[b];
    x.inflight < y.inflight ||
    (x.inflight == y.inflight && (x.lastUsed < y.lastUsed || (x.lastUsed == y.lastUsed && a <= b)))
  }

  ghost predicate IsBest(f: Fleet, ids: set<Id>, id: Id)
    requires ids <= f.metadata.Keys
  {
    id in ids && forall other <- ids :: AtMost(f, id, other)
  }

  lemma {:induction false} BestExists(f: Fleet, ids: set<Id>)
    requires ids != {} && ids <= f.metadata.Keys
    ensures exists id :: IsBest(f, ids, id)
    decreases |ids|
  {
    var x :| x in ids;
    var rest := ids - {x};
    assert forall y <- ids :: y == x || y in rest;
    if rest == {} {
      assert IsBest(f, ids, x);
    } else {
      BestExists(f, rest);
      var y :| IsBest(f, rest, y);
      assert IsBest(f, ids, if AtMost(f, y, x) then y else x);
    }
  }

  ghost function Best(f: Fleet, ids: set<Id>): (id: Id)
    requires ids != {} && ids <= f.metadata.Keys
    ensures IsBest(f, ids, id)
  {
    BestExists(f, ids);
    var id :| IsBest(f, ids, id);
    id
  }

  ghost function Selected(f: Fleet, ask: Ask): (r: Option<Id>)
    ensures r.Some? ==> r.value in Available(f, ask)
    ensures r.None? <==> Available(f, ask) == {}
  {
    if AffinityHit(f, ask) then
      assert f.affinity[(ask.workflow, ask.key)] in Available(f, ask);
      Some(f.affinity[(ask.workflow, ask.key)])
    else if Available(f, ask) != {} then Some(Best(f, Available(f, ask)))
    else None
  }

  function RequestOf(ask: Ask): D.Request {
    (ask.workflow, if ask.task.Some? then ask.task.value else ask.workflow)
  }

  /** A workflow is bound to the instance it was routed to unless its own was hit. */
  function AffinityAfter(f: Fleet, ask: Ask, id: Id): map<(string, Key), Id> {
    if AffinityHit(f, ask) || ask.workflow == "" then f.affinity
    else f.affinity[(ask.workflow, ask.key) := id]
  }

  function Admit(f: Fleet, ticket: Ticket, ask: Ask, id: Id, now: real): Fleet
    requires id in f.metadata
  {
    f.(metadata := f.metadata[id := f.metadata[id].(inflight := f.metadata[id].inflight + 1, lastUsed := now)],
       affinity := AffinityAfter(f, ask, id),
       routes := f.routes[ticket := id],
       demand := D.DoSatisfy(f.demand, ask.key, RequestOf(ask)))
  }

  /** `route_model_request`. */
  ghost function DoRoute(f: Fleet, ticket: Ticket, ask: Ask, now: real): (g: Fleet)
    ensures g.max == f.max
    ensures g.states == f.states
  {
    if ticket in f.routes then f
    else
      match Selected(f, ask)
      case None => f.(demand := D.DoRecord(f.demand, ask.key, RequestOf(ask), ask.anchor))
      case Some(id) => Admit(f, ticket, ask, id, now)
  }

  function Released(m: Meta, now: real): Meta {
    m.(inflight := if m.inflight == 0 then 0 else m.inflight - 1, lastUsed := now)
  }

  function ReleasedIn(metadata: map<Id, Meta>, id: Id, now: real): map<Id, Meta> {
    if id in metadata then metadata[id := Released(metadata[id], now)] else metadata
  }

  /** The route is still out. */
  predicate IsOut(routes: map<Ticket, Id>, ticket: Ticket, id: Id) {
    ticket in routes && routes[ticket] == id
  }

  function Returned(routes: map<Ticket, Id>, ticket: Ticket, id: Id): map<Ticket, Id> {
    if IsOut(routes, ticket, id) then routes - {ticket} else routes
  }

  /** `release_model_route`: it looks the instance up by the id in the route alone, and
      counts down whether or not the route is still out. */
  function DoRelease(f: Fleet, ticket: Ticket, id: Id, now: real): (g: Fleet)
    ensures g.max == f.max
    ensures g.states == f.states
  {
    f.(routes := Returned(f.routes, ticket, id), metadata := ReleasedIn(f.metadata, id, now))
  }

  function CutAdmission(f: Fleet, id: Id): (g: Fleet)
    requires id in f.metadata
    ensures g.actors == f.actors && g.states == f.states && g.routes == f.routes
    ensures g.metadata == f.metadata[id := f.metadata[id].(limit := 1)]
  {
    f.(metadata := f.metadata[id := f.metadata[id].(limit := 1)],
       limits := f.limits[f.metadata[id].key := 1])
  }

  /** `prepare_memory_recovery`. */
  function DoPrepareRecovery(f: Fleet, id: Id): (g: Fleet)
    ensures g.max == f.max
  {
    if id !in f.metadata || !InState(f, id, Ready) then f
    else if f.metadata[id].inflight > 0 then CutAdmission(f, id)
    else Leave(f, id, Draining)
  }

  function DoDecide(f: Fleet, id: Id, identity: string): (g: Fleet)
    ensures g.max == f.max
    ensures g.states == f.states
  {
    if id in f.details && id in f.metadata
    then f.(metadata := f.metadata[id := f.metadata[id].(identity := Some(identity))]) else f
  }

  function DoClearWorkflow(f: Fleet, workflow: string): (g: Fleet)
    ensures g.max == f.max
    ensures g.actors == f.actors && g.metadata == f.metadata && g.routes == f.routes
    ensures g.states == f.states
  {
    if workflow == "" then f
    else f.(demand := D.ClearThese(f.demand, workflow, f.demand.pending.Keys),
            affinity := (map k <- f.affinity | k.0 != workflow :: f.affinity[k]))
  }

  ghost function Step(f: Fleet, a: Action): Fleet {
    match a
    case Register(id, detail) => DoRegister(f, id, detail)
    case MarkReady(id, actor, now) => DoMarkReady(f, id, actor, now)
    case MarkUnhealthy(id, actor) => DoMarkUnhealthy(f, id, actor)
    case RequestCancel(id) => DoRequestCancel(f, id)
    case ClaimScaleIn(id, idle) => DoClaimScaleIn(f, id, idle)
    case CancelClaim(id) => DoCancelClaim(f, id)
    case StopBegin(caller, id, expected, finalize) => DoStopBegin(f, caller, id, expected, finalize)
    case StopEnd(caller, killed, cleaned, inTime) => DoStopEnd(f, caller, killed, cleaned, inTime)
    case Finalize(id, expected) => DoFinalize(f, id, expected)
    case Route(ticket, ask, now) => DoRoute(f, ticket, ask, now)
    case Release(ticket, id, now) => DoRelease(f, ticket, id, now)
    case PrepareRecovery(id) => DoPrepareRecovery(f, id)
    case Decide(id, identity) => DoDecide(f, id, identity)
    case ClearWorkflow(workflow) => DoClearWorkflow(f, workflow)
    case DemandStep(d) => f.(demand := D.Step(f.demand, d))
  }

  ghost function Run(f: Fleet, actions: seq<Action>): Fleet
    decreases |actions|
  {
    if actions == [] then f else Run(Step(f, actions[0]), actions[1..])
  }

  // ----- the invariant ------------------------------------------------------

  ghost predicate Domains(f: Fleet) {
    && (forall id :: id in f.states <==> id in f.actors)
    && (forall id :: id in f.states <==> id in f.details)
    && (forall id <- f.metadata :: id in f.details && f.metadata[id].key == f.details[id].key)
    && (forall id <- f.states :: f.states[id].Ready? || f.states[id].Unhealthy? || f.states[id].Draining? ==>
          id in f.metadata)
    && (forall id <- f.states :: f.states[id].Launching? ==> id !in f.metadata)
    && (forall id <- f.actors :: f.actors[id] < f.born)
  }

  /** What the index should say, from the states and the metadata alone. */
  predicate Routable(f: Fleet, key: Key, id: Id) {
    InState(f, id, Ready) && id in f.metadata && f.metadata[id].key == key
  }

  /** The index holds exactly the ready instances; affinities point into it. */
  ghost predicate Routing(f: Fleet) {
    && (forall key: Key, id: Id :: id in Indexed(f, key) <==> Routable(f, key, id))
    && (forall k <- f.affinity :: Routable(f, k.1, f.affinity[k]))
  }

  ghost predicate Load(f: Fleet) {
    && f.max >= 1
    && (forall id <- f.metadata ::
          f.metadata[id].inflight <= f.max && 1 <= f.metadata[id].limit <= f.max)
    && (forall key <- f.limits :: f.limits[key] == 1)
  }

  predicate Owned(f: Fleet, id: Id) {
    exists c <- f.owners :: f.owners[c].id == id
  }

  /** An instance in `Stopping` is claimed or owned by one caller, and nobody else is. */
  ghost predicate Custody(f: Fleet) {
    && (forall c <- f.owners ::
          && InState(f, f.owners[c].id, Stopping) && f.owners[c].id in f.actors
          && f.actors[f.owners[c].id] == f.owners[c].actor && f.owners[c].id !in f.claims)
    && (forall c <- f.owners, d <- f.owners :: c != d ==> f.owners[c].id != f.owners[d].id)
    && (forall id <- f.claims :: InState(f, id, Stopping))
    && (forall id <- f.states :: f.states[id] == Stopping ==> id in f.claims || Owned(f, id))
  }

  /** What a control transaction has confirmed about the stopped and the forgotten. */
  ghost predicate Confirmed(f: Fleet) {
    && (forall id <- f.states :: f.states[id] == Stopped ==> id in f.actors && f.actors[id] in f.confirmed)
    && f.forgotten <= f.confirmed
    && (forall a <- f.confirmed :: a < f.born)
  }

  ghost predicate Ownership(f: Fleet) {
    Custody(f) && Confirmed(f)
  }

  ghost predicate Inv(f: Fleet) {
    Domains(f) && Routing(f) && Load(f) && Ownership(f) && D.Inv(f.demand)
  }

  lemma StartInv(max: nat)
    requires max >= 1
    ensures Inv(Start(max))
  {
  }

  // Frames: what a step must leave alone for each part of the invariant to survive.

  lemma RoutingFrame(f: Fleet, g: Fleet)
    requires Routing(f) && g.routing == f.routing
    requires forall key: Key, id: Id :: Routable(g, key, id) <==> Routable(f, key, id)
    requires forall k <- g.affinity :: (k in f.affinity && f.affinity[k] == g.affinity[k])
                                       || Routable(g, k.1, g.affinity[k])
    ensures Routing(g)
  {
    forall key: Key, id: Id ensures id in Indexed(g, key) <==> Routable(g, key, id) {
      assert id in Indexed(f, key) <==> Routable(f, key, id);
    }
  }

  /** One instance stops being routable, and `Unroute` follows. */
  lemma RoutingLeaves(f: Fleet, g: Fleet, id: Id)
    requires Routing(f) && g.routing == Unlisted(f.routing, f.metadata, id)
    requires g.affinity == Unbound(f.affinity, id)
    requires !InState(g, id, Ready) || id !in g.metadata
    requires InState(f, id, Ready) ==> id in f.metadata
    requires forall key: Key, x: Id :: x != id ==> (Routable(g, key, x) <==> Routable(f, key, x))
    ensures Routing(g)
  {
    forall key: Key, x: Id ensures x in Indexed(g, key) <==> Routable(g, key, x) {
      assert x in Indexed(f, key) <==> Routable(f, key, x);
    }
  }

  lemma RoutingEnters(f: Fleet, g: Fleet, id: Id)
    requires Routing(f) && id in g.metadata && InState(g, id, Ready) && !InState(f, id, Ready)
    requires g.routing == f.routing[g.metadata[id].key := Indexed(f, g.metadata[id].key) + {id}]
    requires g.affinity == f.affinity
    requires forall key: Key, x: Id :: x != id ==> (Routable(g, key, x) <==> Routable(f, key, x))
    ensures Routing(g)
  {
    forall key: Key, x: Id ensures x in Indexed(g, key) <==> Routable(g, key, x) {
      assert x in Indexed(f, key) <==> Routable(f, key, x);
    }
  }

  /** Nobody enters or leaves a stop. */
  lemma OwnershipFrame(f: Fleet, g: Fleet)
    requires Ownership(f)
    requires g.claims == f.claims && g.owners == f.owners && g.confirmed == f.confirmed
    requires g.forgotten == f.forgotten && g.born >= f.born
    requires forall id: Id :: InState(g, id, Stopping) <==> InState(f, id, Stopping)
    requires forall id: Id :: InState(g, id, Stopped) ==> InState(f, id, Stopped)
    requires forall id <- f.actors :: id in g.actors && g.actors[id] == f.actors[id]
    ensures Ownership(g)
  {
    forall id <- g.states | g.states[id] == Stopping ensures id in g.claims || Owned(g, id) {
      assert InState(g, id, Stopping);
      assert InState(f, id, Stopping);
    }
    forall id <- g.states | g.states[id] == Stopped
      ensures id in g.actors && g.actors[id] in g.confirmed
    {
      assert InState(g, id, Stopped);
      assert InState(f, id, Stopped);
    }
  }

  predicate IsLeaving(status: Status) { status.Unhealthy? || status.Draining? || status.Stopping? }

  lemma LeaveKeepsRouting(f: Fleet, id: Id, status: Status)
    requires Domains(f) && Routing(f) && id in f.states && IsLeaving(status)
    ensures Routing(Leave(f, id, status))
  {
    var g := Leave(f, id, status);
    assert InState(f, id, Ready) ==> id in f.metadata;
    hide Domains;
    assert forall key: Key, x: Id :: x != id ==> (Routable(g, key, x) <==> Routable(f, key, x)) by { hide Routing; }
    RoutingLeaves(f, g, id);
  }

  lemma LeaveKeepsDomains(f: Fleet, id: Id, status: Status)
    requires Domains(f) && id in f.states && IsLeaving(status)
    requires status != Stopping ==> id in f.metadata
    ensures Domains(Leave(f, id, status))
  {
  }

  lemma LeaveKeepsLoad(f: Fleet, id: Id, status: Status)
    requires Load(f)
    ensures Load(Leave(f, id, status))
  {
  }

  // One lemma a step.

  lemma RegisterKeepsDomains(f: Fleet, id: Id, detail: Detail)
    requires Domains(f)
    ensures Domains(DoRegister(f, id, detail))
  {
  }

  lemma RegisterKeepsRouting(f: Fleet, id: Id, detail: Detail)
    requires Domains(f) && Routing(f)
    ensures Routing(DoRegister(f, id, detail))
  {
    hide Routing;
    RoutingFrame(f, DoRegister(f, id, detail));
  }

  lemma RegisterKeepsOwnership(f: Fleet, id: Id, detail: Detail)
    requires Domains(f) && Ownership(f)
    ensures Ownership(DoRegister(f, id, detail))
  {
    hide Ownership;
    if id !in f.actors { OwnershipFrame(f, DoRegister(f, id, detail)); }
  }

  lemma RegisterKeeps(f: Fleet, id: Id, detail: Detail)
    requires Inv(f)
    ensures Inv(DoRegister(f, id, detail))
  {
    RegisterKeepsDomains(f, id, detail);
    RegisterKeepsRouting(f, id, detail);
    RegisterKeepsOwnership(f, id, detail);
    hide Domains, Routing, Ownership, D.Inv;
  }

  lemma ReadyKeepsDomains(f: Fleet, id: Id, actor: Actor, now: real)
    requires Domains(f)
    ensures Domains(DoMarkReady(f, id, actor, now))
  {
  }

  lemma ReadyKeepsOthers(f: Fleet, id: Id, actor: Actor, now: real)
    requires Domains(f) && Load(f) && Ownership(f)
    ensures Load(DoMarkReady(f, id, actor, now)) && Ownership(DoMarkReady(f, id, actor, now))
  {
    hide Ownership;
    OwnershipFrame(f, DoMarkReady(f, id, actor, now));
  }

  lemma ReadyKeepsRouting(f: Fleet, id: Id, actor: Actor, now: real)
    requires Domains(f) && Routing(f)
    ensures Routing(DoMarkReady(f, id, actor, now))
  {
    var g := DoMarkReady(f, id, actor, now);
    hide Routing;
    if g != f {
      hide Domains, NewMeta;
      RoutingEnters(f, g, id);
    }
  }

  lemma ReadyKeeps(f: Fleet, id: Id, actor: Actor, now: real)
    requires Inv(f)
    ensures Inv(DoMarkReady(f, id, actor, now))
  {
    ReadyKeepsDomains(f, id, actor, now);
    ReadyKeepsOthers(f, id, actor, now);
    ReadyKeepsRouting(f, id, actor, now);
    D.TagsKeep(f.demand, D.DoClear(f.demand, D.OfInstance(id)));
    hide Domains, Load, Ownership, Routing, D.Inv, NewMeta, D.DoClear;
  }

  /** Domains, index and load do not look at who owns a stop. */
  lemma CustodyFrame(f: Fleet, claims: set<Id>, owners: map<Caller, Stop>)
    requires Domains(f) && Routing(f) && Load(f)
    ensures var g := f.(claims := claims, owners := owners); Domains(g) && Routing(g) && Load(g)
  {
    var g := f.(claims := claims, owners := owners);
    assert Domains(g) && Load(g) by { hide Routing; }
    hide Domains, Load, Routing;
    RoutingFrame(f, g);
  }

  /** What leaving routing keeps, whoever will own the stop. */
  lemma LeaveKeeps(f: Fleet, id: Id, status: Status)
    requires Domains(f) && Routing(f) && Load(f) && id in f.states && IsLeaving(status)
    requires status.Stopping? || id in f.metadata
    ensures var g := Leave(f, id, status); Domains(g) && Routing(g) && Load(g)
  {
    LeaveKeepsDomains(f, id, status);
    LeaveKeepsRouting(f, id, status);
    LeaveKeepsLoad(f, id, status);
  }

  lemma UnhealthyKeeps(f: Fleet, id: Id, actor: Actor)
    requires Inv(f)
    ensures Inv(DoMarkUnhealthy(f, id, actor))
  {
    if InState(f, id, Ready) {
      LeaveKeeps(f, id, Unhealthy);
      hide Routing, Load, D.Inv;
      OwnershipFrame(f, Leave(f, id, Unhealthy));
    }
  }

  lemma ClaimedKeepsOwnership(f: Fleet, id: Id)
    requires Ownership(f) && id in f.states && !InState(f, id, Stopping)
    ensures Ownership(WithdrawClaimed(f, id))
  {
  }

  lemma WithdrawClaimedKeeps(f: Fleet, id: Id)
    requires Inv(f) && (InState(f, id, Ready) || InState(f, id, Launching))
    ensures Inv(WithdrawClaimed(f, id))
  {
    LeaveKeeps(f, id, Stopping);
    ClaimedKeepsOwnership(f, id);
    CustodyFrame(Leave(f, id, Stopping), f.claims + {id}, f.owners);
    hide Domains, Routing, Load, Ownership, D.Inv;
  }

  lemma RequestCancelKeeps(f: Fleet, id: Id)
    requires Inv(f)
    ensures Inv(DoRequestCancel(f, id))
  {
    if InState(f, id, Ready) || InState(f, id, Launching) { WithdrawClaimedKeeps(f, id); }
    hide Inv, WithdrawClaimed;
  }

  lemma ClaimKeeps(f: Fleet, id: Id, idle: Idle)
    requires Inv(f)
    ensures Inv(DoClaimScaleIn(f, id, idle))
  {
    if InState(f, id, Ready) { WithdrawClaimedKeeps(f, id); }
    hide Inv, WithdrawClaimed;
  }

  lemma FinalizeKeeps(f: Fleet, id: Id, expected: Option<Actor>)
    requires Inv(f)
    ensures Inv(DoFinalize(f, id, expected))
  {
    if InState(f, id, Stopped) { ForgetKeeps(f, id); }
    hide Inv, Forget;
  }

  lemma OwnedStays(f: Fleet, g: Fleet, id: Id, caller: Caller)
    requires Owned(f, id)
    requires forall c <- f.owners :: c != caller ==> c in g.owners && g.owners[c] == f.owners[c]
    requires caller in f.owners ==> f.owners[caller].id != id
    ensures Owned(g, id)
  {
    var c :| c in f.owners && f.owners[c].id == id;
    assert g.owners[c].id == id;
  }

  lemma OwnedKeepsOwnership(f: Fleet, caller: Caller, id: Id)
    requires Ownership(f) && id in f.states && !InState(f, id, Stopping) && id in f.actors
    requires caller !in f.owners
    ensures Ownership(WithdrawOwned(f, caller, id))
  {
    var g := WithdrawOwned(f, caller, id);
    assert g.owners[caller].id == id;
    forall x <- g.states | g.states[x] == Stopping ensures x in g.claims || Owned(g, x) {
      if x != id && x !in f.claims { OwnedStays(f, g, x, caller); }
    }
  }

  lemma WithdrawOwnedKeeps(f: Fleet, caller: Caller, id: Id)
    requires Inv(f) && id in f.states && !InState(f, id, Stopping) && id in f.actors && caller !in f.owners
    ensures Inv(WithdrawOwned(f, caller, id))
  {
    LeaveKeeps(f, id, Stopping);
    OwnedKeepsOwnership(f, caller, id);
    CustodyFrame(Leave(f, id, Stopping), f.claims, f.owners[caller := Stop(id, f.actors[id])]);
    hide Domains, Routing, Load, Ownership, D.Inv;
  }

  lemma TakeClaimKeeps(f: Fleet, caller: Caller, id: Id)
    requires Ownership(f) && id in f.actors && caller !in f.owners
    ensures Ownership(TakeClaim(f, caller, id))
  {
    var g := TakeClaim(f, caller, id);
    if id in f.claims {
      assert g.owners[caller].id == id;
      forall x <- g.states | g.states[x] == Stopping ensures x in g.claims || Owned(g, x) {
        if x != id && x !in f.claims { OwnedStays(f, g, x, caller); }
      }
    }
  }

  lemma CancelClaimKeepsRest(f: Fleet, id: Id)
    requires Domains(f) && Load(f)
    ensures Domains(DoCancelClaim(f, id)) && Load(DoCancelClaim(f, id))
  {
  }

  lemma CancelClaimKeepsOwnership(f: Fleet, id: Id)
    requires Ownership(f)
    ensures Ownership(DoCancelClaim(f, id))
  {
  }

  lemma CancelClaimKeepsRouting(f: Fleet, id: Id)
    requires Routing(f)
    ensures Routing(DoCancelClaim(f, id))
  {
    var g := DoCancelClaim(f, id);
    hide Routing;
    if g != f { RoutingEnters(f, g, id); }
  }

  lemma ForgetKeepsRouting(f: Fleet, id: Id)
    requires Routing(f) && InState(f, id, Stopped)
    ensures Routing(Forget(f, id))
  {
    hide Routing;
    RoutingLeaves(f, Forget(f, id), id);
  }

  lemma ForgetKeepsRest(f: Fleet, id: Id)
    requires Domains(f) && Load(f) && InState(f, id, Stopped)
    ensures Domains(Forget(f, id)) && Load(Forget(f, id))
  {
  }

  lemma ForgetKeepsOwnership(f: Fleet, id: Id)
    requires Ownership(f) && InState(f, id, Stopped)
    ensures Ownership(Forget(f, id))
  {
  }

  lemma StopEndKeepsCustody(f: Fleet, caller: Caller, killed: bool, cleaned: bool, inTime: bool)
    requires Custody(f) && Domains(f)
    ensures Custody(DoStopEnd(f, caller, killed, cleaned, inTime))
  {
    if caller in f.owners {
      var g := DoStopEnd(f, caller, killed, cleaned, inTime);
      assert !InState(g, f.owners[caller].id, Stopping);
      hide Domains;
      forall x <- g.states | g.states[x] == Stopping ensures x in g.claims || Owned(g, x) {
        if x !in f.claims { OwnedStays(f, g, x, caller); }
      }
    }
  }

  lemma StopEndKeepsConfirmed(f: Fleet, caller: Caller, killed: bool, cleaned: bool, inTime: bool)
    requires Ownership(f) && Domains(f)
    ensures Confirmed(DoStopEnd(f, caller, killed, cleaned, inTime))
  {
  }

  lemma StopEndKeepsRest(f: Fleet, caller: Caller, killed: bool, cleaned: bool, inTime: bool)
    requires Ownership(f) && Domains(f) && Load(f)
    ensures var g := DoStopEnd(f, caller, killed, cleaned, inTime); Domains(g) && Load(g)
  {
  }

  lemma StopEndKeepsRouting(f: Fleet, caller: Caller, killed: bool, cleaned: bool, inTime: bool)
    requires Ownership(f) && Routing(f)
    ensures Routing(DoStopEnd(f, caller, killed, cleaned, inTime))
  {
    hide Routing;
    RoutingFrame(f, DoStopEnd(f, caller, killed, cleaned, inTime));
  }

  lemma CancelClaimKeeps(f: Fleet, id: Id)
    requires Inv(f)
    ensures Inv(DoCancelClaim(f, id))
  {
    CancelClaimKeepsRest(f, id);
    CancelClaimKeepsOwnership(f, id);
    CancelClaimKeepsRouting(f, id);
    hide Domains, Routing, Load, Ownership, D.Inv;
  }

  lemma ForgetKeeps(f: Fleet, id: Id)
    requires Inv(f) && InState(f, id, Stopped)
    ensures Inv(Forget(f, id))
  {
    ForgetKeepsRouting(f, id);
    ForgetKeepsRest(f, id);
    ForgetKeepsOwnership(f, id);
    D.TagsKeep(f.demand, D.DoClear(f.demand, D.OfInstance(id)));
    hide Domains, Routing, Load, Ownership, D.Inv, D.DoClear;
  }

  lemma StopBeginKeeps(f: Fleet, caller: Caller, id: Id, expected: Option<Actor>, finalize: bool)
    requires Inv(f)
    ensures Inv(DoStopBegin(f, caller, id, expected, finalize))
  {
    if caller !in f.owners && id in f.states && id in f.actors {
      if InState(f, id, Stopped) {
        ForgetKeeps(f, id);
      } else if InState(f, id, Stopping) {
        TakeClaimKeeps(f, caller, id);
        var g := TakeClaim(f, caller, id);
        CustodyFrame(f, g.claims, g.owners);
      } else {
        WithdrawOwnedKeeps(f, caller, id);
      }
    }
    hide Domains, Routing, Load, Ownership, D.Inv, Forget, WithdrawOwned;
  }

  lemma StopEndKeeps(f: Fleet, caller: Caller, killed: bool, cleaned: bool, inTime: bool)
    requires Inv(f)
    ensures Inv(DoStopEnd(f, caller, killed, cleaned, inTime))
  {
    StopEndKeepsCustody(f, caller, killed, cleaned, inTime);
    StopEndKeepsConfirmed(f, caller, killed, cleaned, inTime);
    StopEndKeepsRest(f, caller, killed, cleaned, inTime);
    StopEndKeepsRouting(f, caller, killed, cleaned, inTime);
    hide Domains, Routing, Load, Custody, Confirmed, D.Inv;
  }

  // Steps that only touch loads, affinities, routes and demand.

  predicate SameBody(f: Fleet, g: Fleet) {
    && g.max == f.max && g.actors == f.actors && g.states == f.states && g.details == f.details
    && g.routing == f.routing && g.claims == f.claims && g.owners == f.owners && g.born == f.born
    && g.confirmed == f.confirmed && g.forgotten == f.forgotten
  }

  ghost predicate SameKeys(f: Fleet, g: Fleet) {
    && (forall id :: id in g.metadata <==> id in f.metadata)
    && (forall id <- f.metadata :: id in g.metadata && g.metadata[id].key == f.metadata[id].key)
  }

  lemma LoadFrameDomains(f: Fleet, g: Fleet)
    requires Domains(f) && SameBody(f, g) && SameKeys(f, g)
    ensures Domains(g)
    ensures forall key: Key, id: Id :: Routable(g, key, id) <==> Routable(f, key, id)
  {
  }

  lemma LoadFrame(f: Fleet, g: Fleet)
    requires Inv(f) && SameBody(f, g) && SameKeys(f, g) && Load(g) && D.Inv(g.demand)
    requires forall k <- g.affinity :: (k in f.affinity && f.affinity[k] == g.affinity[k])
                                       || Routable(f, k.1, g.affinity[k])
    ensures Inv(g)
  {
    LoadFrameDomains(f, g);
    hide Domains, Load, Routing, Ownership, D.Inv, SameKeys;
    RoutingFrame(f, g);
    OwnershipFrame(f, g);
  }

  lemma MetaChanges(f: Fleet, g: Fleet, id: Id, m: Meta)
    requires Load(f) && id in f.metadata && m.key == f.metadata[id].key
    requires m.inflight <= f.max && 1 <= m.limit <= f.max
    requires g.max == f.max && g.metadata == f.metadata[id := m]
    requires forall key <- g.limits :: g.limits[key] == 1
    ensures Load(g) && SameKeys(f, g)
  {
  }

  lemma AffinityAfterIs(f: Fleet, ask: Ask, id: Id)
    ensures var after := AffinityAfter(f, ask, id);
            forall k <- after :: (k in f.affinity && f.affinity[k] == after[k]) || (k.1 == ask.key && after[k] == id)
  {
    hide AffinityHit;
  }

  lemma AdmitKeeps(f: Fleet, ticket: Ticket, ask: Ask, id: Id, now: real)
    requires Inv(f) && Routable(f, ask.key, id) && HasRoom(f, id)
    ensures Inv(Admit(f, ticket, ask, id, now))
  {
    var g := Admit(f, ticket, ask, id, now);
    assert f.metadata[id].inflight + 1 <= f.max && 1 <= f.metadata[id].limit <= f.max;
    D.SatisfyKeeps(f.demand, ask.key, RequestOf(ask));
    hide D.Inv, D.Pending, D.DoSatisfy, D.Without, Domains, Routing, Ownership, Routable, HasRoom;
    hide AffinityAfter, RequestOf;
    MetaChanges(f, g, id, g.metadata[id]);
    hide Load;
    AffinityAfterIs(f, ask, id);
    LoadFrame(f, g);
  }

  lemma RecordKeeps(f: Fleet, ask: Ask)
    requires Inv(f)
    ensures Inv(f.(demand := D.DoRecord(f.demand, ask.key, RequestOf(ask), ask.anchor)))
  {
    DemandStepKeeps(f, D.Record(ask.key, RequestOf(ask), ask.anchor));
    hide Inv;
  }

  lemma RouteKeeps(f: Fleet, ticket: Ticket, ask: Ask, now: real)
    requires Inv(f)
    ensures Inv(DoRoute(f, ticket, ask, now))
  {
    match Selected(f, ask)
    case Some(id) =>
      assert Candidate(f, ask, id) && HasRoom(f, id);
      SelectedIsRoutable(f, ask, id);
      AdmitKeeps(f, ticket, ask, id, now);
      hide Inv, Admit;
    case None =>
      RecordKeeps(f, ask);
      hide Inv, D.DoRecord;
  }

  lemma SelectedIsRoutable(f: Fleet, ask: Ask, id: Id)
    requires Inv(f) && Candidate(f, ask, id)
    ensures Routable(f, ask.key, id)
  {
  }

  lemma ReleaseKeeps(f: Fleet, ticket: Ticket, id: Id, now: real)
    requires Inv(f)
    ensures Inv(DoRelease(f, ticket, id, now))
  {
    var g := DoRelease(f, ticket, id, now);
    hide Domains, Routing, Ownership, D.Inv, Returned;
    if id in f.metadata { MetaChanges(f, g, id, g.metadata[id]); }
    LoadFrame(f, g);
  }

  lemma CutKeeps(f: Fleet, id: Id)
    requires Inv(f) && id in f.metadata
    ensures Inv(CutAdmission(f, id))
  {
    var g := CutAdmission(f, id);
    hide Domains, Routing, Ownership, D.Inv;
    MetaChanges(f, g, id, g.metadata[id]);
    LoadFrame(f, g);
  }

  lemma DecideKeeps(f: Fleet, id: Id, identity: string)
    requires Inv(f)
    ensures Inv(DoDecide(f, id, identity))
  {
    var g := DoDecide(f, id, identity);
    hide Domains, Routing, Ownership, D.Inv;
    if id in f.details && id in f.metadata { MetaChanges(f, g, id, g.metadata[id]); }
    LoadFrame(f, g);
  }

  lemma ClearKeeps(f: Fleet, workflow: string)
    requires Inv(f)
    ensures Inv(DoClearWorkflow(f, workflow))
  {
    var g := DoClearWorkflow(f, workflow);
    if workflow != "" {
      D.StepKeeps(f.demand, D.ClearWorkflow(workflow));
      hide Domains, Routing, Ownership, D.Inv, D.ClearThese;
      LoadFrame(f, g);
    }
  }

  lemma DemandStepKeeps(f: Fleet, d: D.Action)
    requires Inv(f)
    ensures Inv(f.(demand := D.Step(f.demand, d)))
  {
    D.StepKeeps(f.demand, d);
    hide Domains, Routing, Ownership, D.Inv;
    LoadFrame(f, f.(demand := D.Step(f.demand, d)));
  }

  lemma RecoveryKeeps(f: Fleet, id: Id)
    requires Inv(f)
    ensures Inv(DoPrepareRecovery(f, id))
  {
    if id in f.metadata && InState(f, id, Ready) {
      if f.metadata[id].inflight > 0 {
        CutKeeps(f, id);
      } else {
        LeaveKeeps(f, id, Draining);
        hide Routing, Load, D.Inv;
        OwnershipFrame(f, Leave(f, id, Draining));
      }
    }
  }

  lemma StepKeeps(f: Fleet, a: Action)
    requires Inv(f)
    ensures Inv(Step(f, a))
  {
    hide Inv, DoRegister, DoMarkReady, DoMarkUnhealthy, DoRequestCancel, DoClaimScaleIn, DoCancelClaim;
    hide DoStopBegin, DoStopEnd, DoFinalize, DoRoute, DoRelease, DoPrepareRecovery, DoDecide, DoClearWorkflow;
    match a
    case Register(id, detail) => RegisterKeeps(f, id, detail);
    case MarkReady(id, actor, now) => ReadyKeeps(f, id, actor, now);
    case MarkUnhealthy(id, actor) => UnhealthyKeeps(f, id, actor);
    case RequestCancel(id) => RequestCancelKeeps(f, id);
    case ClaimScaleIn(id, idle) => ClaimKeeps(f, id, idle);
    case CancelClaim(id) => CancelClaimKeeps(f, id);
    case StopBegin(caller, id, expected, finalize) => StopBeginKeeps(f, caller, id, expected, finalize);
    case StopEnd(caller, killed, cleaned, inTime) => StopEndKeeps(f, caller, killed, cleaned, inTime);
    case Finalize(id, expected) => FinalizeKeeps(f, id, expected);
    case Route(ticket, ask, now) => RouteKeeps(f, ticket, ask, now);
    case Release(ticket, id, now) => ReleaseKeeps(f, ticket, id, now);
    case PrepareRecovery(id) => RecoveryKeeps(f, id);
    case Decide(id, identity) => DecideKeeps(f, id, identity);
    case ClearWorkflow(workflow) => ClearKeeps(f, workflow);
    case DemandStep(d) => DemandStepKeeps(f, d);
  }

  lemma {:induction false} RunKeeps(f: Fleet, actions: seq<Action>)
    requires Inv(f)
    ensures Inv(Run(f, actions))
    decreases |actions|
  {
    if actions != [] {
      StepKeeps(f, actions[0]);
      hide Step, Inv;
      RunKeeps(Step(f, actions[0]), actions[1..]);
    }
  }

  // ----- the index, ownership and forgetting --------------------------------

  /** In every reachable state the index is what the states and metadata say, and a
      workflow's affinity names a ready instance of the model it is for. */
  lemma IndexAgrees(max: nat, actions: seq<Action>, key: Key, id: Id, workflow: string)
    requires max >= 1
    ensures var f := Run(Start(max), actions);
            && (id in Indexed(f, key) <==> InState(f, id, Ready) && id in f.metadata && f.metadata[id].key == key)
            && ((workflow, key) in f.affinity ==>
                  var mine := f.affinity[(workflow, key)];
                  InState(f, mine, Ready) && mine in f.metadata && f.metadata[mine].key == key)
  {
    StartInv(max);
    RunKeeps(Start(max), actions);
    var f := Run(Start(max), actions);
    assert id in Indexed(f, key) <==> Routable(f, key, id);
  }

  /** An instance is being stopped exactly when it is claimed or owned; never both, and
      never by two callers. */
  lemma StopsAreExclusive(max: nat, actions: seq<Action>, id: Id, c: Caller, d: Caller)
    requires max >= 1
    ensures var f := Run(Start(max), actions);
            && (InState(f, id, Stopping) <==> id in f.claims || Owned(f, id))
            && !(id in f.claims && Owned(f, id))
            && (c in f.owners && d in f.owners && f.owners[c].id == f.owners[d].id ==> c == d)
  {
    StartInv(max);
    RunKeeps(Start(max), actions);
  }

  /** The edges of the state machine; None is an id that is not registered. */
  predicate Edge(before: Option<Status>, after: Option<Status>) {
    if before.None? then after.None? || after == Some(Launching)
    else if after.None? then before == Some(Stopped)
    else
      before == after ||
      match before.value
      case Launching => after.value.Ready? || after.value.Stopping?
      case Ready => after.value.Unhealthy? || after.value.Draining? || after.value.Stopping?
      case Stopping => after.value.Ready? || after.value.Stopped? || after.value.CleanupPending?
      case Stopped => false
      case _ => after.value.Stopping?
  }

  function StatusOf(f: Fleet, id: Id): Option<Status> {
    if id in f.states then Some(f.states[id]) else None
  }

  lemma RegisterEdge(f: Fleet, id: Id, detail: Detail, x: Id)
    requires Domains(f)
    ensures Edge(StatusOf(f, x), StatusOf(DoRegister(f, id, detail), x))
  {
  }

  lemma ReadyEdge(f: Fleet, id: Id, actor: Actor, now: real, x: Id)
    requires Domains(f)
    ensures Edge(StatusOf(f, x), StatusOf(DoMarkReady(f, id, actor, now), x))
  {
  }

  lemma UnhealthyEdge(f: Fleet, id: Id, actor: Actor, x: Id)
    requires Domains(f)
    ensures Edge(StatusOf(f, x), StatusOf(DoMarkUnhealthy(f, id, actor), x))
  {
  }

  lemma CancelEdge(f: Fleet, id: Id, x: Id)
    requires Domains(f)
    ensures Edge(StatusOf(f, x), StatusOf(DoRequestCancel(f, id), x))
  {
    hide WithdrawClaimed, WithdrawOwned, TakeClaim, Forget, Claimable;
  }

  lemma ClaimEdge(f: Fleet, id: Id, idle: Idle, x: Id)
    requires Domains(f)
    ensures Edge(StatusOf(f, x), StatusOf(DoClaimScaleIn(f, id, idle), x))
  {
    hide WithdrawClaimed, WithdrawOwned, TakeClaim, Forget, IdleSince;
  }

  lemma RecoveryEdge(f: Fleet, id: Id, x: Id)
    requires Domains(f)
    ensures Edge(StatusOf(f, x), StatusOf(DoPrepareRecovery(f, id), x))
  {
    hide Leave, CutAdmission;
  }

  lemma StopBeginEdge(f: Fleet, caller: Caller, id: Id, expected: Option<Actor>, finalize: bool, x: Id)
    requires Domains(f)
    ensures Edge(StatusOf(f, x), StatusOf(DoStopBegin(f, caller, id, expected, finalize), x))
  {
    hide WithdrawClaimed, WithdrawOwned, TakeClaim, Forget, Claimable;
  }

  lemma StopEndEdge(f: Fleet, caller: Caller, killed: bool, cleaned: bool, inTime: bool, x: Id)
    requires Custody(f)
    ensures Edge(StatusOf(f, x), StatusOf(DoStopEnd(f, caller, killed, cleaned, inTime), x))
  {
  }

  lemma FinalizeEdge(f: Fleet, id: Id, expected: Option<Actor>, x: Id)
    requires Domains(f)
    ensures Edge(StatusOf(f, x), StatusOf(DoFinalize(f, id, expected), x))
  {
    hide WithdrawClaimed, WithdrawOwned, TakeClaim, Forget, Claimable;
  }

  lemma CancelClaimEdge(f: Fleet, id: Id, x: Id)
    requires Domains(f)
    ensures Edge(StatusOf(f, x), StatusOf(DoCancelClaim(f, id), x))
  {
  }

  /** States change along the coded edges only. */
  lemma {:induction false} StatesMoveAlongEdges(f: Fleet, a: Action, id: Id)
    requires Inv(f)
    ensures Edge(StatusOf(f, id), StatusOf(Step(f, a), id))
  {
    hide Edge, Custody, Domains, DoRegister, DoMarkReady, DoMarkUnhealthy, DoRequestCancel, DoClaimScaleIn;
    hide DoCancelClaim, DoStopBegin, DoStopEnd, DoFinalize, DoPrepareRecovery, D.Inv, D.ClearThese;
    hide Routing, Load, Confirmed, StatusOf;
    match a
    case Register(x, detail) => RegisterEdge(f, x, detail, id);
    case MarkReady(x, actor, now) => ReadyEdge(f, x, actor, now, id);
    case MarkUnhealthy(x, actor) => UnhealthyEdge(f, x, actor, id);
    case RequestCancel(x) => CancelEdge(f, x, id);
    case ClaimScaleIn(x, idle) => ClaimEdge(f, x, idle, id);
    case CancelClaim(x) => CancelClaimEdge(f, x, id);
    case StopBegin(caller, x, expected, finalize) => StopBeginEdge(f, caller, x, expected, finalize, id);
    case StopEnd(caller, killed, cleaned, inTime) => StopEndEdge(f, caller, killed, cleaned, inTime, id);
    case Finalize(x, expected) => FinalizeEdge(f, x, expected, id);
    case PrepareRecovery(x) => RecoveryEdge(f, x, id);
    case Route(ticket, ask, now) => SameStates(f, DoRoute(f, ticket, ask, now), id);
    case Release(ticket, x, now) => SameStates(f, DoRelease(f, ticket, x, now), id);
    case Decide(x, identity) => SameStates(f, DoDecide(f, x, identity), id);
    case ClearWorkflow(workflow) => SameStates(f, DoClearWorkflow(f, workflow), id);
    case DemandStep(d) => SameStates(f, f.(demand := D.Step(f.demand, d)), id);
  }

  lemma SameStates(f: Fleet, g: Fleet, id: Id)
    requires g.states == f.states
    ensures Edge(StatusOf(f, id), StatusOf(g, id))
  {
  }

  /** Only an instance whose actor's termination and whose process cleanup one control
      transaction confirmed is ever forgotten, and an actor belongs to one registration. */
  lemma OnlyConfirmedAreForgotten(max: nat, actions: seq<Action>, id: Id)
    requires max >= 1
    ensures var f := Run(Start(max), actions);
            && f.forgotten <= f.confirmed
            && (InState(f, id, Stopped) ==> id in f.actors && f.actors[id] in f.confirmed)
            && (forall i <- f.actors :: f.actors[i] < f.born)
  {
    StartInv(max);
    RunKeeps(Start(max), actions);
  }

  // ----- load ---------------------------------------------------------------

  /** No instance ever serves more than the configured maximum. */
  lemma LoadIsBounded(max: nat, actions: seq<Action>, id: Id)
    requires max >= 1
    ensures var f := Run(Start(max), actions);
            id in f.metadata ==> f.metadata[id].inflight <= max && 1 <= f.metadata[id].limit <= max
  {
    StartInv(max);
    RunKeeps(Start(max), actions);
    MaxStays(Start(max), actions);
  }

  lemma {:induction false} MaxStays(f: Fleet, actions: seq<Action>)
    ensures Run(f, actions).max == f.max
    decreases |actions|
  {
    hide DoRegister, DoMarkReady, DoMarkUnhealthy, DoRequestCancel, DoClaimScaleIn, DoCancelClaim;
    hide DoStopBegin, DoStopEnd, DoFinalize, DoRoute, DoRelease, DoPrepareRecovery, DoDecide, DoClearWorkflow;
    if actions != [] {
      MaxStays(Step(f, actions[0]), actions[1..]);
    }
  }

  /** What one step may do to one instance's load. */
  predicate LoadMoves(m: Meta, n: Meta, ready: bool) {
    && n.inflight <= m.inflight + 1
    && (n.inflight > m.inflight ==> m.inflight < m.limit && ready)
    && (m.limit == 1 ==> n.limit == 1)
  }

  lemma RouteMovesLoad(f: Fleet, ticket: Ticket, ask: Ask, now: real, id: Id)
    requires id in f.metadata
    ensures var g := Step(f, Route(ticket, ask, now));
            id in g.metadata && LoadMoves(f.metadata[id], g.metadata[id], InState(f, id, Ready))
  {
    hide D.DoSatisfy, D.DoRecord;
    var chosen := Selected(f, ask);
    if chosen.Some? { assert Candidate(f, ask, chosen.value) && HasRoom(f, chosen.value); }
  }

  predicate TouchesMeta(a: Action) {
    a.Route? || a.Release? || a.PrepareRecovery? || a.Decide? || a.MarkReady?
  }

  lemma ReleaseMovesLoad(f: Fleet, ticket: Ticket, x: Id, now: real, id: Id, ready: bool)
    requires id in f.metadata
    ensures LoadMoves(f.metadata[id], DoRelease(f, ticket, x, now).metadata[id], ready)
  {
  }

  lemma RecoveryMovesLoad(f: Fleet, x: Id, id: Id, ready: bool)
    requires id in f.metadata
    ensures LoadMoves(f.metadata[id], DoPrepareRecovery(f, x).metadata[id], ready)
  {
    hide Leave, CutAdmission;
  }

  lemma DecideMovesLoad(f: Fleet, x: Id, identity: string, id: Id, ready: bool)
    requires id in f.metadata
    ensures LoadMoves(f.metadata[id], DoDecide(f, x, identity).metadata[id], ready)
  {
  }

  lemma ReadyMovesLoad(f: Fleet, x: Id, actor: Actor, now: real, id: Id, ready: bool)
    requires Domains(f) && id in f.metadata
    ensures LoadMoves(f.metadata[id], DoMarkReady(f, x, actor, now).metadata[id], ready)
  {
  }

  /** No load and no route changes; instances may be forgotten. */
  ghost predicate LoadStands(f: Fleet, g: Fleet) {
    && g.routes == f.routes
    && forall id <- g.metadata :: id in f.metadata && g.metadata[id] == f.metadata[id]
  }

  lemma StopLeavesLoad(f: Fleet, a: Action)
    requires a.StopBegin? || a.Finalize?
    ensures LoadStands(f, Step(f, a))
  {
    hide WithdrawOwned, TakeClaim, Forget;
  }

  lemma QuietLeavesLoad(f: Fleet, a: Action)
    requires !TouchesMeta(a)
    ensures LoadStands(f, Step(f, a))
  {
    if a.StopBegin? || a.Finalize? { StopLeavesLoad(f, a); }
    hide DoRegister, DoMarkUnhealthy, DoRequestCancel, DoClaimScaleIn, DoCancelClaim, DoClearWorkflow;
    hide DoStopBegin, DoStopEnd, DoFinalize, D.Step;
  }

  lemma SameLoadMoves(m: Meta)
    ensures forall ready :: LoadMoves(m, m, ready)
  {
  }

  /** A request is added only to a ready instance below its limit, and a limit that was
      cut to one stays one: after an out-of-memory recovery began, nothing is admitted
      until the instance is empty. */
  lemma {:induction false} LoadGrowsOnlyWithRoom(f: Fleet, a: Action, id: Id)
    requires Inv(f) && id in f.metadata && id in Step(f, a).metadata
    ensures LoadMoves(f.metadata[id], Step(f, a).metadata[id], InState(f, id, Ready))
  {
    var ready := InState(f, id, Ready);
    hide Domains, Load, Routing, Ownership, D.Inv, InState, LoadMoves;
    hide DoRoute, DoRelease, DoPrepareRecovery, DoDecide, DoMarkReady;
    if a.Route? { RouteMovesLoad(f, a.ticket, a.ask, a.now, id); }
    else if a.Release? { ReleaseMovesLoad(f, a.ticket, a.id, a.now, id, ready); }
    else if a.PrepareRecovery? { RecoveryMovesLoad(f, a.id, id, ready); }
    else if a.Decide? { DecideMovesLoad(f, a.id, a.identity, id, ready); }
    else if a.MarkReady? { ReadyMovesLoad(f, a.id, a.actor, a.now, id, ready); }
    else { QuietLeavesLoad(f, a); SameLoadMoves(f.metadata[id]); }
  }

  /** `id` keeps its metadata and never is ready, from here to the end of the run. */
  ghost predicate Away(f: Fleet, actions: seq<Action>, id: Id)
    decreases |actions|
  {
    && id in f.metadata && !InState(f, id, Ready)
    && (actions == [] || Away(Step(f, actions[0]), actions[1..], id))
  }

  lemma {:induction false} IdleWhileAway(f: Fleet, actions: seq<Action>, id: Id)
    requires Inv(f) && Away(f, actions, id) && f.metadata[id].inflight == 0
    ensures id in Run(f, actions).metadata && Run(f, actions).metadata[id].inflight == 0
    decreases |actions|
  {
    if actions != [] {
      StepKeeps(f, actions[0]);
      LoadGrowsOnlyWithRoom(f, actions[0], id);
      hide Inv, Step;
      IdleWhileAway(Step(f, actions[0]), actions[1..], id);
    }
  }

  /** An instance that was claimed for scale-in, or drained for a memory recovery, serves
      nothing until it is ready again or forgotten. */
  lemma {:induction false} ClaimedOrDrainedServesNothing(f: Fleet, a: Action, actions: seq<Action>, id: Id)
    requires Inv(f) && id in f.metadata
    requires || (a.ClaimScaleIn? && a.id == id && Claimable(f, id, a.idle))
             || (a == PrepareRecovery(id) && InState(f, id, Ready) && f.metadata[id].inflight == 0)
    requires Away(Step(f, a), actions, id)
    ensures var g := Run(Step(f, a), actions); id in g.metadata && g.metadata[id].inflight == 0
  {
    StepKeeps(f, a);
    LoadGrowsOnlyWithRoom(f, a, id);
    assert Step(f, a).metadata[id].inflight == 0;
    IdleWhileAway(Step(f, a), actions, id);
  }

  /** `id` keeps its metadata to the end of the run. */
  ghost predicate Lasts(f: Fleet, actions: seq<Action>, id: Id)
    decreases |actions|
  {
    id in f.metadata && (actions == [] || Lasts(Step(f, actions[0]), actions[1..], id))
  }

  lemma CutAdmissionStep(f: Fleet, a: Action, id: Id)
    requires Inv(f) && id in f.metadata && id in Step(f, a).metadata && f.metadata[id].limit == 1
    ensures Step(f, a).metadata[id].limit == 1
    ensures Step(f, a).metadata[id].inflight <= if f.metadata[id].inflight == 0 then 1 else f.metadata[id].inflight
  {
    LoadGrowsOnlyWithRoom(f, a, id);
    hide Inv, Step;
  }

  /** After admission was cut to one, the load of an instance only drains down to one. */
  lemma {:induction false} CutAdmissionDrains(f: Fleet, actions: seq<Action>, id: Id)
    requires Inv(f) && Lasts(f, actions, id) && f.metadata[id].limit == 1
    ensures var g := Run(f, actions);
            && id in g.metadata && g.metadata[id].limit == 1
            && g.metadata[id].inflight <= if f.metadata[id].inflight == 0 then 1 else f.metadata[id].inflight
    decreases |actions|
  {
    hide Inv, Step;
    if actions != [] {
      StepKeeps(f, actions[0]);
      CutAdmissionStep(f, actions[0], id);
      CutAdmissionDrains(Step(f, actions[0]), actions[1..], id);
    }
  }

  // ----- routing decisions and demand ---------------------------------------

  /** What a request demands of an instance: ready for its model, below its limit, with the
      memory the model needs, and not known to serve another checkpoint. */
  predicate Serves(f: Fleet, ask: Ask, id: Id) {
    && id in f.states && f.states[id] == Ready
    && id in f.metadata && f.metadata[id].key == ask.key && f.metadata[id].inflight < f.metadata[id].limit
    && id in f.details && ask.anchor.memory <= f.details[id].gpuMem
    && (ask.identity.None? || f.metadata[id].identity.None? || f.metadata[id].identity == ask.identity)
  }

  /** The workflow was routed to an instance before, and it still serves. */
  predicate HasOwn(f: Fleet, ask: Ask) {
    (ask.workflow, ask.key) in f.affinity && Serves(f, ask, f.affinity[(ask.workflow, ask.key)])
  }

  lemma ServesIs(f: Fleet, ask: Ask, id: Id)
    requires Routing(f)
    ensures Serves(f, ask, id) <==> Candidate(f, ask, id) && HasRoom(f, id)
    ensures Candidate(f, ask, id) && HasRoom(f, id) <==> id in Available(f, ask)
  {
    assert id in Indexed(f, ask.key) <==> Routable(f, ask.key, id);
  }

  /** What a routing decision is: the workflow's own instance while it serves, else one with
      the fewest requests in flight, of those the least recently used, of those the first;
      nothing exactly when no instance serves. */
  lemma RoutesToTheLeastLoaded(f: Fleet, ask: Ask)
    requires Inv(f)
    ensures Selected(f, ask).None? <==> forall id: Id :: !Serves(f, ask, id)
    ensures HasOwn(f, ask) ==> Selected(f, ask) == Some(f.affinity[(ask.workflow, ask.key)])
    ensures Selected(f, ask).Some? ==> Serves(f, ask, Selected(f, ask).value)
    ensures Selected(f, ask).Some? && !HasOwn(f, ask) ==>
              var id := Selected(f, ask).value;
              forall other: Id :: Serves(f, ask, other) ==>
                var m, n := f.metadata[id], f.metadata[other];
                && m.inflight <= n.inflight
                && (m.inflight == n.inflight ==> m.lastUsed <= n.lastUsed)
                && (m.inflight == n.inflight && m.lastUsed == n.lastUsed ==> id <= other)
  {
    hide Domains, Load, Ownership, D.Inv;
    forall id: Id ensures Serves(f, ask, id) <==> Candidate(f, ask, id) && HasRoom(f, id)
                  ensures Serves(f, ask, id) <==> id in Available(f, ask)
    {
      ServesIs(f, ask, id);
    }
    hide Routing, Serves, Candidate, HasRoom, Available;
    if Selected(f, ask).Some? && !HasOwn(f, ask) {
      var id := Selected(f, ask).value;
      assert IsBest(f, Available(f, ask), id);
    }
  }

  /** A route that fails leaves its request pending, one that succeeds removes it, and
      no other request is touched. */
  lemma {:induction false} RouteAndDemand(f: Fleet, ticket: Ticket, ask: Ask, now: real)
    requires D.Inv(f.demand) && ticket !in f.routes
    ensures var g := Step(f, Route(ticket, ask, now)); var request := RequestOf(ask);
            && (request in D.Pending(g.demand, ask.key) <==> ticket !in g.routes)
            && D.Pending(g.demand, ask.key) - {request} == D.Pending(f.demand, ask.key) - {request}
            && (forall k: Key :: k != ask.key ==> D.Pending(g.demand, k) == D.Pending(f.demand, k))
  {
    hide D.Inv, D.Pending, D.DoRecord, D.DoSatisfy, AffinityAfter, RequestOf, Candidate, HasRoom;
    match Selected(f, ask)
    case Some(id) => D.SatisfyKeeps(f.demand, ask.key, RequestOf(ask));
    case None => D.RecordKeeps(f.demand, ask.key, RequestOf(ask), ask.anchor);
  }

  // ----- conservation of requests in flight ---------------------------------

  function Outstanding(routes: map<Ticket, Id>, id: Id): set<Ticket> {
    set t <- routes | routes[t] == id
  }

  ghost predicate Balanced(metadata: map<Id, Meta>, routes: map<Ticket, Id>) {
    forall id <- metadata :: metadata[id].inflight == |Outstanding(routes, id)|
  }

  ghost predicate Conserved(f: Fleet) {
    Balanced(f.metadata, f.routes)
  }

  predicate BecomesReady(f: Fleet, id: Id, actor: Actor) {
    id in f.actors && f.actors[id] == actor && InState(f, id, Launching) && id in f.details
  }

  /** An instance becomes ready under an id that still has routes of a predecessor. */
  predicate Stale(f: Fleet, a: Action) {
    a.MarkReady? && BecomesReady(f, a.id, a.actor) && Outstanding(f.routes, a.id) != {}
  }

  /** A route that is not out any more is released, while its instance counts requests. */
  predicate Misreleases(f: Fleet, a: Action) {
    a.Release? && !IsOut(f.routes, a.ticket, a.id) && a.id in f.metadata && f.metadata[a.id].inflight > 0
  }

  /** The two ways to lose the count. */
  predicate Miscounts(f: Fleet, a: Action) {
    Stale(f, a) || Misreleases(f, a)
  }

  lemma ReadyConserves(f: Fleet, id: Id, actor: Actor, now: real)
    requires Domains(f) && Conserved(f)
    ensures Conserved(DoMarkReady(f, id, actor, now))
            <==> !(BecomesReady(f, id, actor) && Outstanding(f.routes, id) != {})
  {
    var g := DoMarkReady(f, id, actor, now);
    if BecomesReady(f, id, actor) {
      assert g.metadata[id].inflight == 0;
    }
  }

  lemma AdmitBalances(metadata: map<Id, Meta>, routes: map<Ticket, Id>, ticket: Ticket, id: Id, m: Meta)
    requires Balanced(metadata, routes) && id in metadata && ticket !in routes
    requires m.inflight == metadata[id].inflight + 1
    ensures Balanced(metadata[id := m], routes[ticket := id])
  {
    var after, left := metadata[id := m], routes[ticket := id];
    forall x <- after ensures after[x].inflight == |Outstanding(left, x)| {
      assert Outstanding(left, x)
             == if x == id then Outstanding(routes, x) + {ticket} else Outstanding(routes, x);
    }
  }

  lemma ReleaseBalances(metadata: map<Id, Meta>, routes: map<Ticket, Id>, ticket: Ticket, now: real)
    requires Balanced(metadata, routes) && ticket in routes
    ensures Balanced(ReleasedIn(metadata, routes[ticket], now), routes - {ticket})
  {
    var id := routes[ticket];
    assert ticket in Outstanding(routes, id);
    var after := ReleasedIn(metadata, id, now);
    forall x <- after ensures after[x].inflight == |Outstanding(routes - {ticket}, x)| {
      assert Outstanding(routes - {ticket}, x)
             == if x == id then Outstanding(routes, x) - {ticket} else Outstanding(routes, x);
    }
  }

  /** Counts and routes both stand still, except that an instance may be forgotten. */
  lemma FrameConserves(f: Fleet, g: Fleet)
    requires Conserved(f) && g.routes == f.routes
    requires forall id <- g.metadata :: id in f.metadata && g.metadata[id].inflight == f.metadata[id].inflight
    ensures Conserved(g)
  {
  }

  lemma RecoveryConserves(f: Fleet, id: Id)
    requires Conserved(f)
    ensures Conserved(DoPrepareRecovery(f, id))
  {
    hide Conserved, Leave, CutAdmission;
    FrameConserves(f, DoPrepareRecovery(f, id));
  }

  lemma DecideConserves(f: Fleet, id: Id, identity: string)
    requires Conserved(f)
    ensures Conserved(DoDecide(f, id, identity))
  {
    hide Conserved;
    FrameConserves(f, DoDecide(f, id, identity));
  }

  lemma RouteConserves(f: Fleet, ticket: Ticket, ask: Ask, now: real)
    requires Conserved(f)
    ensures Conserved(DoRoute(f, ticket, ask, now))
  {
    hide Balanced, D.DoRecord, D.DoSatisfy, AffinityAfter, Candidate;
    match Selected(f, ask)
    case Some(id) =>
      assert HasRoom(f, id);
      if ticket !in f.routes {
        AdmitBalances(f.metadata, f.routes, ticket, id,
                      f.metadata[id].(inflight := f.metadata[id].inflight + 1, lastUsed := now));
      }
    case None =>
  }

  /** Counting down without a route that comes back is right exactly at zero. */
  lemma MisreleaseUnbalances(metadata: map<Id, Meta>, routes: map<Ticket, Id>, id: Id, now: real)
    requires Balanced(metadata, routes)
    ensures Balanced(ReleasedIn(metadata, id, now), routes) <==> !(id in metadata && metadata[id].inflight > 0)
  {
    var after := ReleasedIn(metadata, id, now);
    if id in metadata { assert after[id].inflight <= metadata[id].inflight; }
    hide Outstanding;
  }

  lemma ReleaseConservesIff(f: Fleet, ticket: Ticket, id: Id, now: real)
    requires Conserved(f)
    ensures Conserved(DoRelease(f, ticket, id, now)) <==> !Misreleases(f, Release(ticket, id, now))
  {
    hide Balanced, ReleasedIn;
    if IsOut(f.routes, ticket, id) {
      ReleaseBalances(f.metadata, f.routes, ticket, now);
    } else {
      MisreleaseUnbalances(f.metadata, f.routes, id, now);
    }
  }

  /** One step keeps every load equal to the number of outstanding routes exactly when it
      neither makes an id ready that still has routes outstanding nor releases a route
      again. */
  lemma {:induction false} StepConservesIff(f: Fleet, a: Action)
    requires Inv(f) && Conserved(f)
    ensures Conserved(Step(f, a)) <==> !Miscounts(f, a)
  {
    hide Domains, Load, Routing, Ownership, D.Inv, Conserved, Outstanding, BecomesReady, IsOut;
    hide DoMarkReady, DoRoute, DoRelease, DoPrepareRecovery, DoDecide;
    match a
    case MarkReady(id, actor, now) => ReadyConserves(f, id, actor, now);
    case Release(ticket, id, now) => ReleaseConservesIff(f, ticket, id, now);
    case Route(ticket, ask, now) => RouteConserves(f, ticket, ask, now);
    case PrepareRecovery(id) => RecoveryConserves(f, id);
    case Decide(id, identity) => DecideConserves(f, id, identity);
    case _ =>
      QuietLeavesLoad(f, a);
      hide Step;
      FrameConserves(f, Step(f, a));
  }

  /** Conserved in every state the run passes through. */
  ghost predicate AlwaysConserved(f: Fleet, actions: seq<Action>)
    decreases |actions|
  {
    Conserved(f) && (actions == [] || AlwaysConserved(Step(f, actions[0]), actions[1..]))
  }

  ghost predicate NeverMiscounts(f: Fleet, actions: seq<Action>)
    decreases |actions|
  {
    actions == [] || (!Miscounts(f, actions[0]) && NeverMiscounts(Step(f, actions[0]), actions[1..]))
  }

  lemma {:induction false} ConservedIff(f: Fleet, actions: seq<Action>)
    requires Inv(f) && Conserved(f)
    ensures AlwaysConserved(f, actions) <==> NeverMiscounts(f, actions)
    decreases |actions|
  {
    if actions != [] {
      StepKeeps(f, actions[0]);
      StepConservesIff(f, actions[0]);
      hide Inv, Step, Conserved, Miscounts;
      if !Miscounts(f, actions[0]) { ConservedIff(Step(f, actions[0]), actions[1..]); }
    }
  }

  /** In-flight counts equal the issued, unreleased routes throughout a run exactly when
      no instance becomes ready under an id that still has routes outstanding, and no
      route is released again while its instance counts requests. */
  lemma RequestsAreConservedIff(max: nat, actions: seq<Action>)
    requires max >= 1
    ensures AlwaysConserved(Start(max), actions) <==> NeverMiscounts(Start(max), actions)
  {
    StartInv(max);
    ConservedIff(Start(max), actions);
  }

  /** What a caller can see to: an id is not registered while routes of a predecessor are
      out, and a route is released only while it is out. */
  predicate Careful(f: Fleet, a: Action) {
    && (a.Register? ==> Outstanding(f.routes, a.id) == {})
    && (a.Release? ==> IsOut(f.routes, a.ticket, a.id))
  }

  ghost predicate AlwaysCareful(f: Fleet, actions: seq<Action>)
    decreases |actions|
  {
    actions == [] || (Careful(f, actions[0]) && AlwaysCareful(Step(f, actions[0]), actions[1..]))
  }

  /** No instance that is still starting has routes. */
  ghost predicate StartsClean(f: Fleet) {
    forall id <- f.actors :: id !in f.metadata ==> Outstanding(f.routes, id) == {}
  }

  lemma RouteStartsClean(f: Fleet, ticket: Ticket, ask: Ask, now: real)
    requires StartsClean(f)
    ensures StartsClean(DoRoute(f, ticket, ask, now))
  {
    hide D.DoRecord, D.DoSatisfy, AffinityAfter, Candidate;
    match Selected(f, ask)
    case Some(id) =>
      assert HasRoom(f, id);
      var g := DoRoute(f, ticket, ask, now);
      forall x <- g.actors | x !in g.metadata ensures Outstanding(g.routes, x) == {} {
        assert Outstanding(f.routes, x) == {};
        assert forall t <- g.routes :: g.routes[t] == x ==> t in Outstanding(f.routes, x);
      }
    case None =>
  }

  lemma ReleaseStartsClean(f: Fleet, ticket: Ticket, id: Id, now: real)
    requires StartsClean(f)
    ensures StartsClean(DoRelease(f, ticket, id, now))
  {
    var g := DoRelease(f, ticket, id, now);
    forall x <- g.actors | x !in g.metadata ensures Outstanding(g.routes, x) == {} {
      assert Outstanding(g.routes, x) <= Outstanding(f.routes, x);
    }
  }

  /** Where an instance without metadata can come from. */
  lemma StartingInstances(f: Fleet, a: Action, x: Id)
    requires !a.Route? && !a.Release?
    ensures Step(f, a).routes == f.routes
    ensures x in Step(f, a).actors && x !in Step(f, a).metadata ==>
              (x in f.actors && x !in f.metadata) || (a.Register? && a.id == x)
  {
    hide Leave, CutAdmission, WithdrawClaimed, WithdrawOwned, TakeClaim, Forget, DoStopEnd, Claimable;
    hide D.Step, D.ClearThese, D.DoClear, NewMeta, Indexed;
  }

  lemma StepStartsClean(f: Fleet, a: Action)
    requires Inv(f) && StartsClean(f) && Careful(f, a)
    ensures StartsClean(Step(f, a)) && !Miscounts(f, a)
  {
    assert !Miscounts(f, a) by { hide Outstanding, Routing, Load, Ownership, D.Inv; }
    if a.Route? { RouteStartsClean(f, a.ticket, a.ask, a.now); }
    else if a.Release? { ReleaseStartsClean(f, a.ticket, a.id, a.now); }
    else {
      hide Inv, Miscounts, Outstanding, Step;
      forall x <- Step(f, a).actors | x !in Step(f, a).metadata
        ensures Outstanding(Step(f, a).routes, x) == {}
      {
        StartingInstances(f, a, x);
      }
      StartingInstances(f, a, 0);
    }
  }

  lemma {:induction false} CarefulRunsNeverMiscount(f: Fleet, actions: seq<Action>)
    requires Inv(f) && StartsClean(f) && AlwaysCareful(f, actions)
    ensures NeverMiscounts(f, actions)
    decreases |actions|
  {
    if actions != [] {
      StepKeeps(f, actions[0]);
      StepStartsClean(f, actions[0]);
      hide Inv, Step, StartsClean, Miscounts, Careful;
      CarefulRunsNeverMiscount(Step(f, actions[0]), actions[1..]);
    }
  }

  /** While no id is registered again before its routes are released, and each route is
      released once, every in-flight count is the number of routes issued and not yet
      released. */
  lemma {:induction false} FreshIdsAreConserved(max: nat, actions: seq<Action>)
    requires max >= 1 && AlwaysCareful(Start(max), actions)
    ensures AlwaysConserved(Start(max), actions)
  {
    StartInv(max);
    CarefulRunsNeverMiscount(Start(max), actions);
    RequestsAreConservedIff(max, actions);
  }

  // A run that breaks the count: the id is taken again while ticket 0 is outstanding.

  const MODEL: Key := ("model", "vllm")
  const ANY_ASK := Ask("", None, MODEL, D.Anchor("", 0), None)

  ghost function Served(max: nat): Fleet {
    Step(Step(Step(Start(max), Register(0, Detail(MODEL, 0))), MarkReady(0, 0, 1.0)), Route(0, ANY_ASK, 2.0))
  }

  ghost function Stopped0(f: Fleet): Fleet {
    Step(Step(Step(f, StopBegin(0, 0, None, true)), StopEnd(0, true, true, true)), Finalize(0, None))
  }

  lemma FirstReadyIs(max: nat)
    requires max >= 1
    ensures var f := Step(Step(Start(max), Register(0, Detail(MODEL, 0))), MarkReady(0, 0, 1.0));
            && f.actors == map[0 := 0] && f.states == map[0 := Ready] && f.born == 1 && f.max == max
            && f.routes == map[] && f.owners == map[] && f.claims == {} && f.limits == map[]
            && f.metadata == map[0 := Meta(MODEL, 0, max, 0.0, 1.0, None)]
            && f.details == map[0 := Detail(MODEL, 0)] && 0 in Indexed(f, MODEL)
  {
  }

  lemma StoppedIs(f: Fleet)
    requires f.actors == map[0 := 0] && f.states == map[0 := Ready] && f.born == 1 && f.max == 1
    requires f.routes == map[0 := 0] && f.owners == map[] && f.claims == {} && f.limits == map[]
    requires f.metadata.Keys == {0} && f.metadata[0].key == MODEL && 0 in f.details
    ensures var g := Stopped0(f);
            && g.actors == map[] && g.states == map[] && g.metadata == map[] && g.limits == map[] && g.born == 1
            && g.routes == map[0 := 0] && g.max == 1
  {
  }

  ghost function ReadyAgain(f: Fleet): Fleet {
    Step(Step(f, Register(0, Detail(MODEL, 0))), MarkReady(0, 1, 3.0))
  }

  lemma ReadyAgainIs(g: Fleet)
    requires g.actors == map[] && g.states == map[] && g.metadata == map[] && g.limits == map[] && g.born == 1
    requires g.max == 1
    ensures var f := ReadyAgain(g);
            && f.states == map[0 := Ready] && f.routes == g.routes && 0 in Indexed(f, MODEL) && 0 in f.details
            && f.metadata == map[0 := Meta(MODEL, 0, 1, 0.0, 3.0, None)]
  {
  }

  /** The state of a single ready instance. */
  ghost predicate Single(f: Fleet, m: Meta, routes: map<Ticket, Id>) {
    && f.states == map[0 := Ready] && 0 in Indexed(f, MODEL) && 0 in f.details
    && f.metadata == map[0 := m] && f.routes == routes
  }

  lemma OnlyOneIsSelected(f: Fleet, m: Meta)
    requires Single(f, m, f.routes) && m.key == MODEL && m.inflight < m.limit
    ensures Selected(f, ANY_ASK) == Some(0)
  {
    assert Candidate(f, ANY_ASK, 0) && 0 in Available(f, ANY_ASK);
    assert forall id <- Available(f, ANY_ASK) :: id == 0;
  }

  lemma RoutedIsAdmitted(f: Fleet, m: Meta, ticket: Ticket, now: real)
    requires Single(f, m, f.routes) && m.key == MODEL && m.inflight < m.limit && ticket !in f.routes
    ensures 0 in f.metadata && Step(f, Route(ticket, ANY_ASK, now)) == Admit(f, ticket, ANY_ASK, 0, now)
  {
    OnlyOneIsSelected(f, m);
    assert 0 in f.metadata;
    hide Selected, Candidate, Available, Single, Admit, Indexed;
  }

  lemma AdmittedIs(f: Fleet, m: Meta, ticket: Ticket, now: real)
    requires Single(f, m, f.routes)
    ensures 0 in f.metadata
    ensures Single(Admit(f, ticket, ANY_ASK, 0, now), m.(inflight := m.inflight + 1, lastUsed := now),
                   f.routes[ticket := 0])
  {
    hide D.DoSatisfy, AffinityAfter, RequestOf;
    assert f.metadata[0 := m.(inflight := m.inflight + 1, lastUsed := now)]
           == map[0 := m.(inflight := m.inflight + 1, lastUsed := now)];
  }

  lemma RoutedIs(f: Fleet, m: Meta, ticket: Ticket, now: real)
    requires Single(f, m, f.routes) && m.key == MODEL && m.inflight < m.limit && ticket !in f.routes
    ensures var h := Step(f, Route(ticket, ANY_ASK, now));
            Single(h, m.(inflight := m.inflight + 1, lastUsed := now), f.routes[ticket := 0])
  {
    RoutedIsAdmitted(f, m, ticket, now);
    AdmittedIs(f, m, ticket, now);
    hide Single, Admit, Step;
  }

  lemma AdmitLeaves(f: Fleet, ticket: Ticket, now: real)
    requires 0 in f.metadata
    ensures var g := Admit(f, ticket, ANY_ASK, 0, now);
            && g.actors == f.actors && g.born == f.born && g.max == f.max && g.owners == f.owners
            && g.claims == f.claims && g.limits == f.limits && g.details == f.details
  {
    hide D.DoSatisfy, AffinityAfter, RequestOf;
  }

  lemma ServedIs()
    ensures var f := Served(1);
            && f.actors == map[0 := 0] && f.states == map[0 := Ready] && f.born == 1 && f.max == 1
            && f.routes == map[0 := 0] && f.owners == map[] && f.claims == {} && f.limits == map[]
            && f.metadata.Keys == {0} && f.metadata[0].key == MODEL && 0 in f.details
  {
    FirstReadyIs(1);
    var f := Step(Step(Start(1), Register(0, Detail(MODEL, 0))), MarkReady(0, 0, 1.0));
    var m := Meta(MODEL, 0, 1, 0.0, 1.0, None);
    hide Step, Admit, Indexed;
    assert Single(f, m, f.routes);
    RoutedIsAdmitted(f, m, 0, 2.0);
    RoutedIs(f, m, 0, 2.0);
    AdmitLeaves(f, 0, 2.0);
  }

  lemma ReleasedIs(f: Fleet, m: Meta, ticket: Ticket, now: real)
    requires Single(f, m, f.routes) && m.inflight > 0
    ensures Single(Step(f, Release(ticket, 0, now)), m.(inflight := m.inflight - 1, lastUsed := now),
                   Returned(f.routes, ticket, 0))
  {
    assert ReleasedIn(f.metadata, 0, now) == map[0 := Released(m, now)];
    hide Returned;
  }

  ghost function Reused(): Fleet {
    Step(ReadyAgain(Stopped0(Served(1))), Route(1, ANY_ASK, 4.0))
  }

  /** With one request allowed per instance: the predecessor's route makes the new
      instance serve beside it, and its release brings the count to zero while a
      request is still served. */
  lemma {:induction false} ReusedIdLosesTheCount()
    ensures Reused().routes == map[0 := 0, 1 := 0]
    ensures var g := Step(Reused(), Release(0, 0, 5.0));
            && InState(g, 0, Ready) && Outstanding(g.routes, 0) == {1}
            && 0 in g.metadata && g.metadata[0].inflight == 0
  {
    hide Stopped0, Served, ReadyAgain, Step;
    ServedIs();
    StoppedIs(Served(1));
    ReadyAgainIs(Stopped0(Served(1)));
    var m := Meta(MODEL, 0, 1, 0.0, 3.0, None);
    RoutedIs(ReadyAgain(Stopped0(Served(1))), m, 1, 4.0);
    ReleasedIs(Reused(), m.(inflight := 1, lastUsed := 4.0), 0, 5.0);
    assert Returned(map[0 := 0, 1 := 0], 0, 0) == map[1 := 0];
  }

  // A run that breaks it in one life: the same route is released twice.

  ghost function ReadyOnce(): Fleet {
    Step(Step(Start(2), Register(0, Detail(MODEL, 0))), MarkReady(0, 0, 1.0))
  }

  ghost function TwoServed(): Fleet {
    Step(Step(ReadyOnce(), Route(0, ANY_ASK, 2.0)), Route(1, ANY_ASK, 3.0))
  }

  ghost function ReleasedTwice(): Fleet {
    Step(Step(TwoServed(), Release(0, 0, 4.0)), Release(0, 0, 5.0))
  }

  /** Two requests are served; releasing the first one's route twice brings the count to
      zero while the second is still served. */
  lemma {:induction false} RouteReleasedTwiceLosesTheCount()
    ensures TwoServed().routes == map[0 := 0, 1 := 0]
    ensures var g := ReleasedTwice();
            && InState(g, 0, Ready) && Outstanding(g.routes, 0) == {1}
            && 0 in g.metadata && g.metadata[0].inflight == 0
  {
    FirstReadyIs(2);
    hide Step;
    var m := Meta(MODEL, 0, 2, 0.0, 1.0, None);
    RoutedIs(ReadyOnce(), m, 0, 2.0);
    RoutedIs(Step(ReadyOnce(), Route(0, ANY_ASK, 2.0)), m.(inflight := 1, lastUsed := 2.0), 1, 3.0);
    ReleasedIs(TwoServed(), m.(inflight := 2, lastUsed := 3.0), 0, 4.0);
    ReleasedIs(Step(TwoServed(), Release(0, 0, 4.0)), m.(inflight := 1, lastUsed := 4.0), 0, 5.0);
    assert Returned(map[0 := 0, 1 := 0], 0, 0) == map[1 := 0];
    assert Returned(map[1 := 0], 0, 0) == map[1 := 0];
  }
}
