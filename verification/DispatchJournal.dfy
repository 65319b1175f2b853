/** Starting a run so that a crash at any point can be recovered
    (maze/core/path/path.py: `run_workflow`, `_start_workflow`, the dispatch failure,
    cleanup, retry and recovery members).

    One run id, with its dispatch record in memory and on disk.  Every statement of
    `_start_workflow` that writes, sends or creates something is one step; a persist, a
    revocation or a send, of a root or of a cleanup request, may fail before or after
    taking effect, and a crash may come between any two steps.  The start itself runs on
    the event loop, so scheduler answers, ticks and sweeps come between starts, never
    inside one.  A run that is not loaded is read from disk wherever it is looked at, and
    that may fail.  After a crash nothing runs before recovery has gone through: a failing
    recovery ends the process that was starting. */
module DispatchJournal {
  import opened Options

  type Submission = nat
  type RequestId = nat

  const MAX_ATTEMPTS: nat := 5

  datatype Status = Prepared | Dispatching | Active | CleanupPending | Terminal

  datatype Artifacts = NoArtifacts | Pending | Created | Revoked

  /** The `dispatch` record; `owned` when capabilities are created for the run. */
  datatype Dispatch = Dispatch(status: Status, artifacts: Artifacts, owned: bool, request: Option<RequestId>)

  /** Where `_start_workflow` is. */
  datatype Place =
    | Idle
    | FirstPersist
    | Preparing          // creating capabilities, building the root messages
    | SecondPersist      // artifact status
    | Recording          // the start event
    | ThirdPersist       // dispatching
    | Sending(left: nat)
    | LastPersist        // active
    | Failing            // in the exception handler

  /** What the outside world has said. */
  datatype Evidence = Evidence(
    requested: set<RequestId>,   // stop requests handed to the scheduler
    confirmed: set<RequestId>,   // of those, the ones it confirmed
    runtimeVerified: bool,       // Ray and the scheduler's models were cleaned up
    shutdownRequested: bool)

  datatype Journal = Journal(
    memory: Option<Dispatch>,            // static_runs
    disk: Option<Dispatch>,
    place: Place,
    roots: nat,
    current: Option<Submission>,         // the last submission that created the run
    senders: set<Submission>,            // history: submissions that sent a root
    sent: seq<int>,                      // history: the roots sent, by position
    live: bool,                          // a capability of the run exists
    evidence: Evidence,
    nextRequest: RequestId,
    attempts: map<RequestId, nat>,       // workflow_cleanup_retries
    starting: bool)                      // the process died; recovery is still to come

  datatype Outcome = Ok | FailBefore | FailAfter

  /** How reading a run that is not loaded, revoking the capabilities and recording the
      failure go. */
  datatype Finishing = Finishing(readable: bool, revoke: Outcome, persist: Outcome)

  datatype Action =
    | Submit(submission: Submission, roots: nat, artifacts: bool, owned: bool)
    | Advance(outcome: Outcome, answer: Answer)
    | Flush(outcome: Outcome)
    | Crash
    | Recover(readable: bool, outcome: Outcome, answer: Answer)
    | RequestCleanup(outcome: Outcome, answer: Answer)
    | Respond(request: RequestId, finishing: Finishing)
    | Tick(request: RequestId, readable: bool, due: bool, answer: Answer)
    | SchedulerExit(outcome: Outcome, answer: Answer)
    | VerifyRuntime(finishing: Finishing)

  /** What comes of handing a stop request to the scheduler: an error, which the source
      catches, or perhaps an answer at once. */
  datatype Answer = Answer(send: Outcome, confirms: bool, finishing: Finishing)

  const FRESH :=
    Journal(None, None, Idle, 0, None, {}, [], false, Evidence({}, {}, false, false), 0, map[], false)

  /** The record operations look at: the run in memory, else the stored snapshot. */
  function Now(s: Journal): Option<Dispatch> {
    if s.memory.Some? then s.memory else s.disk
  }

  /** Memory follows only when the run is loaded. */
  function InMemory(s: Journal, d: Dispatch): Option<Dispatch> {
    if s.memory.Some? then Some(d) else None
  }

  /** Writing the record: memory first, then disk. */
  function Persist(s: Journal, d: Dispatch, outcome: Outcome): Journal {
    if outcome.FailBefore? then s.(memory := InMemory(s, d))
    else s.(memory := InMemory(s, d), disk := Some(d))
  }

  // ----- failure and cleanup ------------------------------------------------

  function Ended(d: Dispatch): Dispatch {
    d.(status := Terminal, artifacts := if d.owned then Revoked else d.artifacts)
  }

  /** Something is left to revoke. */
  predicate NeedsRevoking(d: Dispatch) {
    d.owned && !d.artifacts.Revoked?
  }

  function Revoking(s: Journal, revoke: Outcome): Journal {
    if revoke.FailBefore? then s else s.(live := false)
  }

  /** The stored run is needed and cannot be read. */
  predicate Unread(s: Journal, finishing: Finishing) {
    s.memory.None? && !finishing.readable
  }

  /** `_finish_workflow_dispatch_failure`: read, revoke, mark, persist. */
  function FinishFailure(s: Journal, finishing: Finishing): Journal {
    if Unread(s, finishing) || Now(s).None? || Now(s).value.status.Terminal? then s
    else
      var d := Now(s).value;
      if !NeedsRevoking(d) then Persist(s, Ended(d), finishing.persist)
      else if finishing.revoke.Ok? then Persist(Revoking(s, Ok), Ended(d), finishing.persist)
      else Revoking(s, finishing.revoke)
  }

  /** It raises when the reading, the revocation or the record of the failure fails. */
  predicate FinishRaises(s: Journal, finishing: Finishing) {
    || Unread(s, finishing)
    || (Now(s).Some? && !Now(s).value.status.Terminal?
        && ((NeedsRevoking(Now(s).value) && !finishing.revoke.Ok?) || !finishing.persist.Ok?))
  }

  /** The run waits for this request. */
  predicate Awaits(s: Journal, request: RequestId) {
    Now(s).Some? && Now(s).value.status.CleanupPending? && Now(s).value.request == Some(request)
  }

  function Cleared(s: Journal, request: RequestId): Journal {
    s.(attempts := s.attempts - {request})
  }

  /** The run ends; the retry entry goes only when the failure was recorded. */
  function GiveUp(s: Journal, request: RequestId, finishing: Finishing): Journal {
    if FinishRaises(s, finishing) then FinishFailure(s, finishing)
    else Cleared(FinishFailure(s, finishing), request)
  }

  /** `_confirm_workflow_cleanup`: only the pending request's own confirmation counts. */
  function Confirm(s: Journal, request: RequestId, finishing: Finishing): Journal {
    if Unread(s, finishing) then s
    else if Awaits(s, request) then GiveUp(s, request, finishing)
    else Cleared(s, request)
  }

  predicate ConfirmRaises(s: Journal, request: RequestId, finishing: Finishing) {
    Unread(s, finishing) || (Awaits(s, request) && FinishRaises(s, finishing))
  }

  function Confirmed(e: Evidence, request: RequestId): Evidence {
    e.(confirmed := e.confirmed + {request})
  }

  function Attempts(s: Journal, request: RequestId): nat {
    if request in s.attempts then s.attempts[request] else 0
  }

  function Asked(e: Evidence, request: RequestId): Evidence {
    e.(requested := e.requested + {request})
  }

  /** An attempt is counted before the request is handed over. */
  function Counted(s: Journal, request: RequestId): Journal {
    s.(attempts := s.attempts[request := Attempts(s, request) + 1])
  }

  /** The request is on its way. */
  function Handed(s: Journal, request: RequestId): Journal {
    s.(evidence := Asked(s.evidence, request))
  }

  /** The scheduler confirmed it. */
  function Heard(s: Journal, request: RequestId): Journal {
    s.(evidence := Confirmed(s.evidence, request))
  }

  /** `_send_workflow_cleanup_request`: an error of the send itself is caught. */
  function SendCleanup(s: Journal, request: RequestId, answer: Answer): Journal {
    var t := Counted(s, request);
    if answer.send.FailBefore? then t
    else if answer.send.Ok? && answer.confirms then
      Confirm(Heard(Handed(t, request), request), request, answer.finishing)
    else Handed(t, request)
  }

  /** An error while acting on an answer at once is not. */
  predicate SendRaises(s: Journal, request: RequestId, answer: Answer) {
    answer.send.Ok? && answer.confirms && ConfirmRaises(s, request, answer.finishing)
  }

  /** A new request id, written before it is used. */
  function MarkCleanup(s: Journal, d: Dispatch, outcome: Outcome): Journal {
    Persist(s.(nextRequest := s.nextRequest + 1),
            d.(status := CleanupPending, request := Some(s.nextRequest)), outcome)
  }

  /** `_request_workflow_cleanup`: the request id is durable before it is sent. */
  function DoRequestCleanup(s: Journal, outcome: Outcome, answer: Answer): Journal {
    if Now(s).None? then s
    else
      var d := Now(s).value;
      if d.status.CleanupPending? then
        (if d.request.Some? then SendCleanup(s, d.request.value, answer) else s)
      else
        var t := MarkCleanup(s, d, outcome);
        if outcome.Ok? then SendCleanup(t, s.nextRequest, answer) else t
  }

  predicate CleanupRaises(s: Journal, outcome: Outcome, answer: Answer) {
    && Now(s).Some?
    && if Now(s).value.status.CleanupPending?
       then Now(s).value.request.None? || SendRaises(s, Now(s).value.request.value, answer)
       else !outcome.Ok? || SendRaises(MarkCleanup(s, Now(s).value, outcome), s.nextRequest, answer)
  }

  // ----- the start ----------------------------------------------------------

  /** `run_workflow`: a run that is on disk is never started again. */
  function DoSubmit(s: Journal, submission: Submission, roots: nat, artifacts: bool, owned: bool): Journal {
    if !s.place.Idle? || s.disk.Some? then s
    else
      s.(memory := Some(Dispatch(Prepared, if artifacts || owned then Pending else NoArtifacts, owned, None)),
         place := FirstPersist, roots := roots, current := Some(submission))
  }

  /** One statement of `_start_workflow`. */
  function DoAdvance(s: Journal, outcome: Outcome, answer: Answer): Journal {
    if s.memory.None? then s
    else
      var d := s.memory.value;
      match s.place
      case Idle => s
      case FirstPersist =>
        if outcome.Ok? then Persist(s, d, outcome).(place := Preparing)
        else Persist(s, d, outcome).(memory := None, place := Idle)
      case Preparing =>
        var t := if d.owned && !outcome.FailBefore? then s.(live := true) else s;
        t.(place := if outcome.Ok? then SecondPersist else Failing)
      case SecondPersist =>
        Persist(s, d.(artifacts := if d.artifacts.Pending? then Created else d.artifacts), outcome)
          .(place := if outcome.Ok? then Recording else Failing)
      case Recording => s.(place := if outcome.Ok? then ThirdPersist else Failing)
      case ThirdPersist =>
        Persist(s, d.(status := Dispatching), outcome)
          .(place := if outcome.Ok? then Sending(s.roots) else Failing)
      case Sending(left) => DoSend(s, left, outcome)
      case LastPersist =>
        Persist(s, d.(status := Active), outcome).(place := if outcome.Ok? then Idle else Failing)
      case Failing =>
        if d.status.Prepared? then FinishFailure(s.(place := Idle), answer.finishing)
        else DoRequestCleanup(s.(place := Idle), outcome, answer)
  }

  /** One root message, or the end of the loop. */
  function DoSend(s: Journal, left: nat, outcome: Outcome): Journal {
    if left == 0 then s.(place := LastPersist)
    else if outcome.FailBefore? then s.(place := Failing)
    else
      s.(sent := s.sent + [s.roots - left], senders := s.senders + Submitter(s),
         place := if outcome.Ok? then Sending(left - 1) else Failing)
  }

  function Submitter(s: Journal): set<Submission> {
    if s.current.Some? then {s.current.value} else {}
  }

  // ----- everything else ----------------------------------------------------

  function DoCrash(s: Journal): Journal {
    s.(memory := None, place := Idle, attempts := map[], starting := true)
  }

  /** `_recover_incomplete_workflow_dispatches`, when the process starts.  It passes over
      a run it cannot read; an error ends the process, and the next one tries again. */
  function DoRecover(s: Journal, readable: bool, outcome: Outcome, answer: Answer): Journal {
    if !s.starting then s
    else if !readable then Serving(s)
    else if RecoverRaises(Serving(s), outcome, answer) then DoCrash(Recovering(Serving(s), outcome, answer))
    else Recovering(Serving(s), outcome, answer)
  }

  /** A new process, with nothing to retry yet. */
  function Serving(s: Journal): Journal {
    s.(starting := false, attempts := map[])
  }

  /** The record is at hand: a prepared run is given up without reading it again. */
  function Recovering(s: Journal, outcome: Outcome, answer: Answer): Journal {
    if s.disk.None? then s
    else
      match s.disk.value.status
      case Active => s
      case Terminal => s
      case Prepared => FinishFailure(s, AtHand(answer.finishing))
      case _ => DoRequestCleanup(s, outcome, answer)
  }

  function AtHand(finishing: Finishing): Finishing {
    finishing.(readable := true)
  }

  predicate RecoverRaises(s: Journal, outcome: Outcome, answer: Answer) {
    && s.disk.Some?
    && match s.disk.value.status
       case Active => false
       case Terminal => false
       case Prepared => FinishRaises(s, AtHand(answer.finishing))
       case _ => CleanupRaises(s, outcome, answer)
  }

  /** `_dispatch_requires_cleanup`. */
  predicate RequiresCleanup(s: Journal) {
    s.memory.Some? && (s.memory.value.status.Dispatching? || s.memory.value.status.CleanupPending?)
  }

  /** `_cleanup_is_pending`: a run that is neither loaded nor readable waits for nothing. */
  predicate IsPending(s: Journal, request: RequestId, readable: bool) {
    (s.memory.Some? || readable) && Awaits(s, request)
  }

  /** A tick of `_retry_pending_workflow_cleanups` for one request. */
  function DoTick(s: Journal, request: RequestId, readable: bool, due: bool, answer: Answer): Journal {
    if !s.place.Idle? || request !in s.attempts then s
    else if !IsPending(s, request, readable) then Cleared(s, request)
    else if !due then s
    else if s.attempts[request] >= MAX_ATTEMPTS then GiveUp(ShutDown(s), request, answer.finishing)
    else SendCleanup(s, request, answer)
  }

  /** Scheduler shutdown is requested. */
  function ShutDown(s: Journal): Journal {
    s.(evidence := s.evidence.(shutdownRequested := true))
  }

  /** The scheduler exited: a waiting run gets a retry entry, without a request going out. */
  function DoSchedulerExit(s: Journal, outcome: Outcome, answer: Answer): Journal {
    if !s.place.Idle? || !RequiresCleanup(s) then s
    else if s.memory.value.status.CleanupPending? then
      (if s.memory.value.request.Some? then Registered(s, s.memory.value.request.value) else s)
    else DoRequestCleanup(s, outcome, answer)
  }

  /** `_register_workflow_cleanup`. */
  function Registered(s: Journal, request: RequestId): Journal {
    if request in s.attempts then s else s.(attempts := s.attempts[request := 0])
  }

  /** After a scheduler exit: the cleanup of Ray and of the models succeeded. */
  function DoVerifyRuntime(s: Journal, finishing: Finishing): Journal {
    var t := s.(evidence := s.evidence.(runtimeVerified := true));
    if s.place.Idle? && RequiresCleanup(s) && s.memory.value.request.Some?
    then Confirm(t, s.memory.value.request.value, finishing) else t
  }

  function DoRespond(s: Journal, request: RequestId, finishing: Finishing): Journal {
    if !s.place.Idle? || request !in s.evidence.requested then s
    else Confirm(Heard(s, request), request, finishing)
  }

  function Act(s: Journal, a: Action): Journal {
    match a
    case Submit(submission, roots, artifacts, owned) => DoSubmit(s, submission, roots, artifacts, owned)
    case Advance(outcome, answer) => DoAdvance(s, outcome, answer)
    case Flush(outcome) => if s.place.Idle? && s.memory.Some? then Persist(s, s.memory.value, outcome) else s
    case Crash => DoCrash(s)
    case Recover(readable, outcome, answer) => DoRecover(s, readable, outcome, answer)
    case RequestCleanup(outcome, answer) =>
      if s.place.Idle? && RequiresCleanup(s) then DoRequestCleanup(s, outcome, answer) else s
    case Respond(request, finishing) => DoRespond(s, request, finishing)
    case Tick(request, readable, due, answer) => DoTick(s, request, readable, due, answer)
    case SchedulerExit(outcome, answer) => DoSchedulerExit(s, outcome, answer)
    case VerifyRuntime(finishing) => DoVerifyRuntime(s, finishing)
  }

  /** Until recovery went through, the process serves nothing. */
  function Step(s: Journal, a: Action): Journal {
    if s.starting && !a.Crash? && !a.Recover? then s else Act(s, a)
  }

  function Run(s: Journal, actions: seq<Action>): Journal
    decreases |actions|
  {
    if actions == [] then s else Run(Step(s, actions[0]), actions[1..])
  }

  // ----- the invariant ------------------------------------------------------

  /** The first `|sent|` roots, each once and in order. */
  predicate InOrder(sent: seq<int>) {
    forall i :: 0 <= i < |sent| ==> sent[i] == i
  }

  /** What may be said about a record wherever it is kept. */
  predicate RecordOk(s: Journal, d: Dispatch) {
    && (d.status.Prepared? ==> s.sent == [] && d.request.None?)
    && (d.status.Active? ==> |s.sent| == s.roots)
    && (d.artifacts.Revoked? ==> !s.live)
    && (s.live ==> d.owned)
    && (d.request.Some? ==> d.request.value < s.nextRequest)
    && (d.status.CleanupPending? ==> d.request.Some?)
    && (d.status.Terminal? ==> !s.live && Justified(s, d))
  }

  /** Why a run may be given up. */
  predicate Justified(s: Journal, d: Dispatch) {
    match d.request
    case None => s.sent == []
    case Some(request) =>
      request in s.evidence.confirmed || s.evidence.runtimeVerified || s.evidence.shutdownRequested
  }

  /** How the start's place constrains the two records. */
  predicate PlaceOk(s: Journal) {
    match s.place
    case Idle => s.disk.None? ==> s.memory.None?
    case FirstPersist =>
      s.current.Some? && s.disk.None? && s.memory.Some? && s.memory.value.status.Prepared?
      && Starting(s.memory.value) && !s.live
    case Sending(left) => BothAt(s, Dispatching) && |s.sent| == s.roots - left
    case LastPersist => BothAt(s, Dispatching) && |s.sent| == s.roots
    case Failing => BothStarting(s)
    case _ => BothAt(s, Prepared)
  }

  predicate BothStarting(s: Journal) {
    && s.current.Some? && s.memory.Some? && s.disk.Some?
    && Starting(s.memory.value) && Starting(s.disk.value) && s.memory.value.owned == s.disk.value.owned
  }

  predicate BothAt(s: Journal, status: Status) {
    BothStarting(s) && s.memory.value.status == status && s.disk.value.status == status
  }

  predicate Starting(d: Dispatch) {
    && (d.status.Prepared? || d.status.Dispatching? || d.status.Active?)
    && !d.artifacts.Revoked? && d.request.None?
  }

  predicate Inv(s: Journal) {
    && (s.memory.Some? ==> RecordOk(s, s.memory.value))
    && (s.disk.Some? ==> RecordOk(s, s.disk.value))
    && (s.disk.None? ==> s.sent == [] && !s.live)
    && PlaceOk(s)
    && (s.starting ==> s.place.Idle? && s.memory.None?)
    && InOrder(s.sent) && |s.sent| <= s.roots
    && (s.sent != [] <==> s.senders != {}) && s.senders <= Submitter(s)
    && s.evidence.confirmed <= s.evidence.requested
    && AreIssued(s.attempts, s.nextRequest)
  }

  /** Only request ids made so far are retried. */
  predicate AreIssued(attempts: map<RequestId, nat>, next: RequestId) {
    forall request :: request in attempts ==> request < next
  }

  lemma SubmitKeeps(s: Journal, submission: Submission, roots: nat, artifacts: bool, owned: bool)
    requires Inv(s) && !s.starting
    ensures Inv(DoSubmit(s, submission, roots, artifacts, owned))
  {
  }

  lemma RevokeKeeps(s: Journal, revoke: Outcome)
    requires Inv(s)
    ensures Inv(Revoking(s, revoke))
  {
  }

  lemma FinishKeeps(s: Journal, finishing: Finishing)
    requires Inv(s) && s.place.Idle?
    requires Now(s).Some? ==> Justified(s, Now(s).value)
    ensures Inv(FinishFailure(s, finishing)) && FinishFailure(s, finishing).place.Idle?
  {
    if Now(s).Some? && !Now(s).value.status.Terminal? {
      var d := Now(s).value;
      RevokeKeeps(s, finishing.revoke);
      if NeedsRevoking(d) && finishing.revoke.Ok? { EndKeeps(Revoking(s, Ok), d, finishing.persist); }
      assert !NeedsRevoking(d) ==> !s.live;
      if !NeedsRevoking(d) { EndKeeps(s, d, finishing.persist); }
      hide Inv, Persist;
    }
  }

  lemma EndKeeps(s: Journal, d: Dispatch, outcome: Outcome)
    requires Inv(s) && s.place.Idle? && Now(s) == Some(d) && Justified(s, d) && !s.live
    ensures Inv(Persist(s, Ended(d), outcome)) && Persist(s, Ended(d), outcome).place.Idle?
  {
  }

  /** Hearing more never makes a record wrong. */
  lemma EvidenceGrows(s: Journal, e: Evidence, attempts: map<RequestId, nat>)
    requires Inv(s) && s.evidence.confirmed <= e.confirmed <= e.requested
    requires s.evidence.runtimeVerified ==> e.runtimeVerified
    requires s.evidence.shutdownRequested ==> e.shutdownRequested
    requires AreIssued(attempts, s.nextRequest)
    ensures Inv(s.(evidence := e, attempts := attempts))
  {
  }

  lemma ClearedKeeps(s: Journal, request: RequestId)
    requires Inv(s)
    ensures Inv(Cleared(s, request))
  {
    EvidenceGrows(s, s.evidence, s.attempts - {request});
    hide Inv;
  }

  lemma GiveUpKeeps(s: Journal, request: RequestId, finishing: Finishing)
    requires Inv(s) && s.place.Idle?
    requires Now(s).Some? ==> Justified(s, Now(s).value)
    ensures Inv(GiveUp(s, request, finishing))
  {
    FinishKeeps(s, finishing);
    hide Inv, FinishFailure, FinishRaises, Cleared;
    ClearedKeeps(FinishFailure(s, finishing), request);
  }

  lemma ConfirmKeeps(s: Journal, request: RequestId, finishing: Finishing)
    requires Inv(s) && s.place.Idle?
    requires request in s.evidence.confirmed || s.evidence.runtimeVerified
    ensures Inv(Confirm(s, request, finishing))
  {
    hide Inv, GiveUp, Cleared, Unread;
    if Awaits(s, request) { GiveUpKeeps(s, request, finishing); } else { ClearedKeeps(s, request); }
  }

  lemma CountedKeeps(s: Journal, request: RequestId)
    requires Inv(s) && request < s.nextRequest
    ensures Inv(Counted(s, request)) && Counted(s, request).place == s.place
  {
    EvidenceGrows(s, s.evidence, s.attempts[request := Attempts(s, request) + 1]);
    hide Inv;
  }

  lemma HandedKeeps(s: Journal, request: RequestId)
    requires Inv(s)
    ensures Inv(Handed(s, request)) && Handed(s, request).place == s.place
    ensures request in Handed(s, request).evidence.requested
  {
    EvidenceGrows(s, Asked(s.evidence, request), s.attempts);
    hide Inv;
  }

  lemma HeardKeeps(s: Journal, request: RequestId)
    requires Inv(s) && request in s.evidence.requested
    ensures Inv(Heard(s, request)) && Heard(s, request).place == s.place
    ensures request in Heard(s, request).evidence.confirmed
  {
    EvidenceGrows(s, Confirmed(s.evidence, request), s.attempts);
    hide Inv;
  }

  lemma SendKeeps(s: Journal, request: RequestId, answer: Answer)
    requires Inv(s) && s.place.Idle? && request < s.nextRequest
    ensures Inv(SendCleanup(s, request, answer))
  {
    hide Inv, Confirm, Counted, Handed, Heard;
    CountedKeeps(s, request);
    var t := Counted(s, request);
    HandedKeeps(t, request);
    HeardKeeps(Handed(t, request), request);
    ConfirmKeeps(Heard(Handed(t, request), request), request, answer.finishing);
  }

  lemma MarkKeeps(s: Journal, outcome: Outcome)
    requires Inv(s) && s.place.Idle? && Now(s).Some? && !Now(s).value.status.Terminal?
    ensures Inv(MarkCleanup(s, Now(s).value, outcome))
  {
  }

  lemma CleanupKeeps(s: Journal, outcome: Outcome, answer: Answer)
    requires Inv(s) && s.place.Idle? && (Now(s).Some? ==> !Now(s).value.status.Terminal?)
    ensures Inv(DoRequestCleanup(s, outcome, answer))
  {
    if Now(s).Some? {
      var d := Now(s).value;
      if d.status.CleanupPending? {
        SendKeeps(s, d.request.value, answer);
      } else {
        MarkKeeps(s, outcome);
        assert MarkCleanup(s, d, outcome).place.Idle?;
        hide Inv, MarkCleanup;
        SendKeepsAfter(s, outcome, answer);
      }
      hide Inv, SendCleanup, MarkCleanup;
    }
  }

  lemma SendKeepsAfter(s: Journal, outcome: Outcome, answer: Answer)
    requires Now(s).Some? && s.place.Idle? && Inv(MarkCleanup(s, Now(s).value, outcome))
    ensures Inv(SendCleanup(MarkCleanup(s, Now(s).value, outcome), s.nextRequest, answer))
  {
    assert MarkCleanup(s, Now(s).value, outcome).place.Idle?;
    assert s.nextRequest < MarkCleanup(s, Now(s).value, outcome).nextRequest;
    hide Inv, MarkCleanup, SendCleanup;
    SendKeeps(MarkCleanup(s, Now(s).value, outcome), s.nextRequest, answer);
  }

  lemma SendingKeeps(s: Journal, left: nat, outcome: Outcome)
    requires Inv(s) && s.place == Sending(left)
    ensures Inv(DoSend(s, left, outcome))
  {
  }

  lemma PersistingKeeps(s: Journal, outcome: Outcome, answer: Answer)
    requires Inv(s)
    requires s.place.FirstPersist? || s.place.SecondPersist? || s.place.ThirdPersist? || s.place.LastPersist?
    ensures Inv(DoAdvance(s, outcome, answer))
  {
    hide DoSend, FinishFailure, DoRequestCleanup;
  }

  lemma FailingKeeps(s: Journal, outcome: Outcome, answer: Answer)
    requires Inv(s) && s.place.Failing?
    ensures Inv(DoAdvance(s, outcome, answer))
  {
    var t := s.(place := Idle);
    assert Inv(t) && !t.memory.value.status.Terminal?;
    if s.memory.value.status.Prepared? { FinishKeeps(t, answer.finishing); }
    else { CleanupKeeps(t, outcome, answer); }
    hide Inv, FinishFailure, DoRequestCleanup, DoSend, Persist;
  }

  lemma AdvanceKeeps(s: Journal, outcome: Outcome, answer: Answer)
    requires Inv(s)
    ensures Inv(DoAdvance(s, outcome, answer))
  {
    match s.place
    case FirstPersist => PersistingKeeps(s, outcome, answer);
    case SecondPersist => PersistingKeeps(s, outcome, answer);
    case ThirdPersist => PersistingKeeps(s, outcome, answer);
    case LastPersist => PersistingKeeps(s, outcome, answer);
    case Sending(left) => SendingKeeps(s, left, outcome);
    case Failing => FailingKeeps(s, outcome, answer);
    case _ => hide Persist, FinishFailure, DoRequestCleanup, DoSend;
  }

  lemma TickKeeps(s: Journal, request: RequestId, readable: bool, due: bool, answer: Answer)
    requires Inv(s)
    ensures Inv(DoTick(s, request, readable, due, answer))
  {
    if s.place.Idle? {
      var e := s.evidence.(shutdownRequested := true);
      EvidenceGrows(s, e, s.attempts);
      assert ShutDown(s) == s.(evidence := e, attempts := s.attempts);
      assert request in s.attempts ==> request < s.nextRequest;
      hide Inv, SendCleanup, GiveUp, Cleared;
      ClearedKeeps(s, request);
      if Awaits(s, request) { GiveUpKeeps(ShutDown(s), request, answer.finishing); }
      if request in s.attempts {
        SendKeeps(s, request, answer);
      }
    }
  }

  lemma ExitKeeps(s: Journal, outcome: Outcome, answer: Answer)
    requires Inv(s)
    ensures Inv(DoSchedulerExit(s, outcome, answer))
  {
    if s.place.Idle? && RequiresCleanup(s) {
      CleanupKeeps(s, outcome, answer);
      if s.memory.value.request.Some? {
        var request := s.memory.value.request.value;
        assert request < s.nextRequest;
        EvidenceGrows(s, s.evidence, s.attempts[request := 0]);
        assert s.(attempts := s.attempts[request := 0])
               == s.(evidence := s.evidence, attempts := s.attempts[request := 0]);
      }
    }
    hide Inv, DoRequestCleanup;
  }

  lemma RespondKeeps(s: Journal, request: RequestId, finishing: Finishing)
    requires Inv(s)
    ensures Inv(DoRespond(s, request, finishing))
  {
    if s.place.Idle? && request in s.evidence.requested {
      HeardKeeps(s, request);
      hide Inv;
      ConfirmKeeps(Heard(s, request), request, finishing);
      hide Confirm;
    }
  }

  lemma VerifyKeeps(s: Journal, finishing: Finishing)
    requires Inv(s)
    ensures Inv(DoVerifyRuntime(s, finishing))
  {
    var t := s.(evidence := s.evidence.(runtimeVerified := true));
    assert Inv(t);
    hide Inv;
    if s.place.Idle? && RequiresCleanup(s) && s.memory.value.request.Some? {
      ConfirmKeeps(t, s.memory.value.request.value, finishing);
    }
    hide Confirm;
  }

  /** Giving up and cleaning up neither load nor unload a run, nor store a new one. */
  predicate Frames(s: Journal, t: Journal) {
    && t.place == s.place && t.starting == s.starting && t.memory.Some? == s.memory.Some?
    && (t.disk.Some? ==> s.disk.Some? || s.memory.Some?)
  }

  lemma FinishFrames(s: Journal, finishing: Finishing)
    ensures Frames(s, FinishFailure(s, finishing))
  {
    if Now(s).Some? {
      var d := Now(s).value;
      assert Frames(s, Revoking(s, finishing.revoke));
      assert Frames(s, Persist(s, Ended(d), finishing.persist));
      assert Frames(s, Persist(Revoking(s, Ok), Ended(d), finishing.persist));
      hide Persist, Revoking, Frames, Now;
    }
  }

  lemma GiveUpFrames(s: Journal, request: RequestId, finishing: Finishing)
    ensures Frames(s, FinishFailure(s, finishing)) && Frames(s, GiveUp(s, request, finishing))
    ensures Frames(s, Confirm(s, request, finishing))
  {
    FinishFrames(s, finishing);
    hide FinishFailure, FinishRaises, Awaits, Unread;
  }

  lemma SendFrames(s: Journal, request: RequestId, answer: Answer)
    ensures Frames(s, SendCleanup(s, request, answer))
  {
    var t := Handed(Counted(s, request), request);
    assert Frames(s, t) && Frames(s, Heard(t, request));
    GiveUpFrames(Heard(t, request), request, answer.finishing);
    hide Confirm;
  }

  lemma CleanupFrames(s: Journal, outcome: Outcome, answer: Answer)
    ensures Frames(s, DoRequestCleanup(s, outcome, answer))
  {
    if Now(s).Some? {
      var d := Now(s).value;
      if d.status.CleanupPending? {
        if d.request.Some? { SendFrames(s, d.request.value, answer); }
      } else {
        assert Frames(s, MarkCleanup(s, d, outcome));
        SendFrames(MarkCleanup(s, d, outcome), s.nextRequest, answer);
      }
      hide SendCleanup, MarkCleanup;
    }
  }

  lemma RecoveringKeeps(s: Journal, outcome: Outcome, answer: Answer)
    requires Inv(s) && s.place.Idle? && s.memory.None?
    ensures Inv(Recovering(s, outcome, answer)) && Frames(s, Recovering(s, outcome, answer))
  {
    if s.disk.Some? {
      if s.disk.value.status.Prepared? {
        FinishKeeps(s, AtHand(answer.finishing));
        GiveUpFrames(s, 0, AtHand(answer.finishing));
      } else if !s.disk.value.status.Terminal? {
        CleanupKeeps(s, outcome, answer);
        CleanupFrames(s, outcome, answer);
      }
    }
    hide Inv, FinishFailure, DoRequestCleanup;
  }

  lemma ServingKeeps(s: Journal)
    requires Inv(s) && s.starting
    ensures Inv(Serving(s)) && s.place.Idle? && s.memory.None?
  {
  }

  lemma CrashKeeps(s: Journal)
    requires Inv(s)
    ensures Inv(DoCrash(s))
  {
  }

  lemma RecoverKeeps(s: Journal, readable: bool, outcome: Outcome, answer: Answer)
    requires Inv(s)
    ensures Inv(DoRecover(s, readable, outcome, answer))
    ensures s.memory.None? ==> DoRecover(s, readable, outcome, answer).memory.None?
    ensures s.place.Idle? ==> DoRecover(s, readable, outcome, answer).place.Idle?
  {
    if s.starting {
      ServingKeeps(s);
      hide Inv;
      RecoveringKeeps(Serving(s), outcome, answer);
      CrashKeeps(Recovering(Serving(s), outcome, answer));
      hide Recovering, RecoverRaises;
    }
  }

  lemma StepKeeps(s: Journal, a: Action)
    requires Inv(s)
    ensures Inv(Step(s, a))
  {
    match a
    case Submit(submission, roots, artifacts, owned) =>
      if !s.starting { SubmitKeeps(s, submission, roots, artifacts, owned); }
    case Advance(outcome, answer) => AdvanceKeeps(s, outcome, answer);
    case RequestCleanup(outcome, answer) =>
      if s.place.Idle? && RequiresCleanup(s) { CleanupKeeps(s, outcome, answer); }
      hide Inv, DoRequestCleanup;
    case Respond(request, finishing) => RespondKeeps(s, request, finishing);
    case Tick(request, readable, due, answer) => TickKeeps(s, request, readable, due, answer);
    case SchedulerExit(outcome, answer) => ExitKeeps(s, outcome, answer);
    case VerifyRuntime(finishing) => VerifyKeeps(s, finishing);
    case Recover(readable, outcome, answer) => RecoverKeeps(s, readable, outcome, answer);
    case _ =>
  }

  lemma {:induction false} RunKeeps(s: Journal, actions: seq<Action>)
    requires Inv(s)
    ensures Inv(Run(s, actions))
    decreases |actions|
  {
    if actions != [] {
      StepKeeps(s, actions[0]);
      RunKeeps(Step(s, actions[0]), actions[1..]);
    }
  }

  // ----- safety at every point of every run ---------------------------------

  /** If a root task was ever sent, the stored status is past prepared, whatever failed
      and wherever the process died. */
  lemma SentMeansStored(actions: seq<Action>)
    requires Run(FRESH, actions).sent != []
    ensures var s := Run(FRESH, actions); s.disk.Some? && !s.disk.value.status.Prepared?
  {
    RunKeeps(FRESH, actions);
  }

  /** Whatever fails and wherever the process dies, the roots sent are the first ones of
      the workflow, in order and each once; a stored active status means all of them. */
  lemma RootsAreSentOnceInOrder(actions: seq<Action>)
    ensures var s := Run(FRESH, actions);
            && |s.sent| <= s.roots && (forall i :: 0 <= i < |s.sent| ==> s.sent[i] == i)
            && (s.disk.Some? && s.disk.value.status.Active? ==> |s.sent| == s.roots)
  {
    RunKeeps(FRESH, actions);
  }

  /** A run is given up only when nothing was sent, its own cleanup request was
      confirmed, runtime cleanup was verified, or scheduler shutdown was requested; and
      then no capability of the run is left. */
  lemma TerminalIsJustified(actions: seq<Action>, d: Dispatch)
    requires Run(FRESH, actions).memory == Some(d) || Run(FRESH, actions).disk == Some(d)
    requires d.status.Terminal?
    ensures var s := Run(FRESH, actions);
            && !s.live
            && (|| s.sent == []
                || (d.request.Some? && d.request.value in s.evidence.confirmed)
                || s.evidence.runtimeVerified
                || s.evidence.shutdownRequested)
  {
    RunKeeps(FRESH, actions);
  }

  /** The roots of one run are sent by at most one submission. */
  lemma OneSubmissionSends(actions: seq<Action>, a: Submission, b: Submission)
    requires a in Run(FRESH, actions).senders && b in Run(FRESH, actions).senders
    ensures a == b
  {
    RunKeeps(FRESH, actions);
  }

  // ----- every stored run is looked after, unless ---------------------------

  /** Someone will end the run: it is done or with the task machinery, its start or the
      process's start is still under way, or the retry loop holds its request. */
  predicate LookedAfter(s: Journal) {
    s.disk.None? || !s.place.Idle? || s.starting || Resolved(s)
  }

  predicate Resolved(s: Journal) {
    Settled(s) || Retried(s)
  }

  predicate Settled(s: Journal) {
    Now(s).Some? && (Now(s).value.status.Active? || Now(s).value.status.Terminal?)
  }

  predicate Retried(s: Journal) {
    && Now(s).Some? && Now(s).value.status.CleanupPending?
    && Now(s).value.request.Some? && Now(s).value.request.value in s.attempts
  }

  /** The five ways to drop a run: a first persist that takes effect and still raises; a
      failed start of a prepared run whose capabilities cannot be revoked; a failed start
      of any other whose cleanup request cannot be persisted; a tick that cannot read the
      waiting run, and a recovery that cannot read one that is not done. */
  predicate Drops(s: Journal, a: Action) {
    match a
    case Advance(outcome, answer) => s.memory.Some? && StartDrops(s, outcome, answer)
    case Tick(request, readable, _, _) =>
      && !s.starting && s.place.Idle? && s.memory.None? && !readable
      && request in s.attempts && Awaits(s, request)
    case Recover(readable, _, _) =>
      s.starting && !readable && s.disk.Some? && !s.disk.value.status.Active? && !s.disk.value.status.Terminal?
    case _ => false
  }

  predicate StartDrops(s: Journal, outcome: Outcome, answer: Answer)
    requires s.memory.Some?
  {
    match s.place
    case FirstPersist => outcome.FailAfter?
    case Failing =>
      if s.memory.value.status.Prepared?
      then NeedsRevoking(s.memory.value) && !answer.finishing.revoke.Ok?
      else !outcome.Ok?
    case _ => false
  }

  lemma GiveUpResolves(s: Journal, request: RequestId, finishing: Finishing)
    requires Awaits(s, request) && request in s.attempts
    ensures Resolved(GiveUp(s, request, finishing))
  {
  }

  lemma ConfirmResolves(s: Journal, request: RequestId, finishing: Finishing)
    requires Resolved(s)
    ensures Resolved(Confirm(s, request, finishing))
  {
    if Awaits(s, request) { GiveUpResolves(s, request, finishing); }
    hide GiveUp;
  }

  lemma SendResolves(s: Journal, request: RequestId, answer: Answer)
    requires Awaits(s, request)
    ensures Resolved(SendCleanup(s, request, answer))
  {
    var t := Handed(Counted(s, request), request);
    assert Awaits(t, request) && request in t.attempts;
    assert Awaits(Heard(t, request), request) && request in Heard(t, request).attempts;
    ConfirmResolves(Heard(t, request), request, answer.finishing);
    hide Confirm;
  }

  lemma MarkAwaits(s: Journal, d: Dispatch, outcome: Outcome)
    requires s.memory.Some? || outcome.Ok?
    ensures Awaits(MarkCleanup(s, d, outcome), s.nextRequest)
  {
  }

  /** A cleanup request that could be persisted is retried. */
  lemma CleanupResolves(s: Journal, outcome: Outcome, answer: Answer)
    requires Inv(s) && Now(s).Some? && !Now(s).value.status.Terminal?
    requires outcome.Ok? || Now(s).value.status.CleanupPending?
    ensures Resolved(DoRequestCleanup(s, outcome, answer))
  {
    var d := Now(s).value;
    if d.status.CleanupPending? {
      SendResolves(s, d.request.value, answer);
    } else {
      MarkAwaits(s, d, outcome);
      hide Inv, MarkCleanup, SendCleanup;
      SendResolves(MarkCleanup(s, d, outcome), s.nextRequest, answer);
    }
    hide Inv, MarkCleanup, SendCleanup, Resolved;
  }

  lemma FinishLooksAfterIff(s: Journal, finishing: Finishing)
    requires s.place.Idle? && !s.starting && s.memory.Some? && s.disk.Some? && s.memory.value.status.Prepared?
    ensures LookedAfter(FinishFailure(s, finishing)) <==> !(NeedsRevoking(s.memory.value) && !finishing.revoke.Ok?)
  {
  }

  lemma FailedMarkDrops(s: Journal, outcome: Outcome)
    requires s.place.Idle? && !s.starting && s.memory.Some? && s.disk.Some? && !outcome.Ok?
    requires s.nextRequest !in s.attempts
    ensures !LookedAfter(MarkCleanup(s, s.memory.value, outcome))
  {
  }

  lemma FailingLooksAfterIff(s: Journal, outcome: Outcome, answer: Answer)
    requires Inv(s) && s.place.Failing?
    ensures LookedAfter(DoAdvance(s, outcome, answer)) <==> !Drops(s, Advance(outcome, answer))
  {
    var t := s.(place := Idle);
    assert Inv(t) && !s.starting && s.disk.Some? && s.nextRequest !in s.attempts;
    var d := s.memory.value;
    assert !d.status.Terminal? && !d.status.CleanupPending?;
    hide Inv, Persist;
    if d.status.Prepared? {
      FinishLooksAfterIff(t, answer.finishing);
    } else if outcome.Ok? {
      CleanupResolves(t, outcome, answer);
    } else {
      FailedMarkDrops(t, outcome);
      assert DoRequestCleanup(t, outcome, answer) == MarkCleanup(t, d, outcome);
    }
    hide FinishFailure, DoRequestCleanup, Resolved;
  }

  lemma AdvanceLooksAfterIff(s: Journal, outcome: Outcome, answer: Answer)
    requires Inv(s) && LookedAfter(s)
    ensures LookedAfter(DoAdvance(s, outcome, answer)) <==> !Drops(s, Advance(outcome, answer))
  {
    if s.place.Failing? { FailingLooksAfterIff(s, outcome, answer); }
    hide FinishFailure, DoRequestCleanup;
  }

  lemma TickLooksAfterIff(s: Journal, request: RequestId, readable: bool, due: bool, answer: Answer)
    requires LookedAfter(s) && !s.starting && Inv(s)
    ensures LookedAfter(DoTick(s, request, readable, due, answer))
            <==> !Drops(s, Tick(request, readable, due, answer))
  {
    assert Awaits(s, request) ==> s.disk.Some?;
    if s.place.Idle? && request in s.attempts && IsPending(s, request, readable) {
      GiveUpResolves(ShutDown(s), request, answer.finishing);
      SendResolves(s, request, answer);
    }
    hide Inv, GiveUp, SendCleanup;
  }

  lemma ExitLooksAfter(s: Journal, outcome: Outcome, answer: Answer)
    requires LookedAfter(s) && !s.starting && Inv(s)
    ensures LookedAfter(DoSchedulerExit(s, outcome, answer))
  {
    if s.place.Idle? && RequiresCleanup(s) {
      assert s.disk.Some? && Resolved(s);
    }
    hide Inv, DoRequestCleanup;
  }

  lemma ConfirmLooksAfter(s: Journal, request: RequestId, finishing: Finishing)
    requires LookedAfter(s) && !s.starting && Inv(s)
    ensures LookedAfter(DoRespond(s, request, finishing)) && LookedAfter(DoVerifyRuntime(s, finishing))
  {
    var t := s.(evidence := s.evidence.(runtimeVerified := true));
    if s.place.Idle? && s.disk.Some? {
      ConfirmResolves(Heard(s, request), request, finishing);
      if s.memory.Some? && s.memory.value.request.Some? {
        ConfirmResolves(t, s.memory.value.request.value, finishing);
      }
    }
    hide Inv, Confirm;
  }

  lemma FinishSettles(s: Journal, finishing: Finishing)
    requires Now(s).Some? && !FinishRaises(s, finishing)
    ensures Settled(FinishFailure(s, finishing))
  {
  }

  lemma RecoveringResolves(s: Journal, outcome: Outcome, answer: Answer)
    requires Inv(s) && s.memory.None? && s.place.Idle? && s.disk.Some? && !RecoverRaises(s, outcome, answer)
    ensures Resolved(Recovering(s, outcome, answer))
  {
    var d := s.disk.value;
    if d.status.Prepared? {
      FinishSettles(s, AtHand(answer.finishing));
    } else if d.status.Dispatching? || d.status.CleanupPending? {
      assert outcome.Ok? || d.status.CleanupPending?;
      CleanupResolves(s, outcome, answer);
    }
    hide Inv, FinishFailure, FinishRaises, DoRequestCleanup, CleanupRaises;
  }

  /** A recovery that reads the run and goes through resolves it. */
  lemma RecoverResolves(s: Journal, outcome: Outcome, answer: Answer)
    requires Inv(s) && s.starting && s.disk.Some? && !RecoverRaises(Serving(s), outcome, answer)
    ensures Resolved(DoRecover(s, true, outcome, answer)) && !DoRecover(s, true, outcome, answer).starting
  {
    ServingKeeps(s);
    hide Inv, Recovering, RecoverRaises, Resolved;
    RecoveringResolves(Serving(s), outcome, answer);
    RecoveringKeeps(Serving(s), outcome, answer);
  }

  lemma RecoverLooksAfterIff(s: Journal, readable: bool, outcome: Outcome, answer: Answer)
    requires Inv(s) && s.starting
    ensures LookedAfter(DoRecover(s, readable, outcome, answer)) <==> !Drops(s, Recover(readable, outcome, answer))
  {
    ServingKeeps(s);
    if readable {
      if s.disk.None? {
        assert Recovering(Serving(s), outcome, answer) == Serving(s);
      } else if !RecoverRaises(Serving(s), outcome, answer) {
        RecoverResolves(s, outcome, answer);
      }
    }
    hide Inv, Recovering, RecoverRaises;
  }

  lemma {:induction false} StepLooksAfterIff(s: Journal, a: Action)
    requires Inv(s) && LookedAfter(s)
    ensures LookedAfter(Step(s, a)) <==> !Drops(s, a)
  {
    match a
    case Advance(outcome, answer) =>
      if !s.starting { AdvanceLooksAfterIff(s, outcome, answer); }
      hide DoAdvance;
    case RequestCleanup(outcome, answer) =>
      if !s.starting && s.place.Idle? && RequiresCleanup(s) { CleanupResolves(s, outcome, answer); }
      hide DoRequestCleanup;
    case Tick(request, readable, due, answer) =>
      if !s.starting { TickLooksAfterIff(s, request, readable, due, answer); }
      hide DoTick;
    case SchedulerExit(outcome, answer) =>
      if !s.starting { ExitLooksAfter(s, outcome, answer); }
      hide DoSchedulerExit;
    case Respond(request, finishing) =>
      if !s.starting { ConfirmLooksAfter(s, request, finishing); }
      hide DoRespond;
    case VerifyRuntime(finishing) =>
      if !s.starting { ConfirmLooksAfter(s, 0, finishing); }
      hide DoVerifyRuntime;
    case Recover(readable, outcome, answer) =>
      if s.starting { RecoverLooksAfterIff(s, readable, outcome, answer); }
      hide DoRecover;
    case _ =>
  }

  predicate AlwaysLookedAfter(s: Journal, actions: seq<Action>)
    decreases |actions|
  {
    LookedAfter(s) && (actions == [] || AlwaysLookedAfter(Step(s, actions[0]), actions[1..]))
  }

  predicate NeverDrops(s: Journal, actions: seq<Action>)
    decreases |actions|
  {
    actions == [] || (!Drops(s, actions[0]) && NeverDrops(Step(s, actions[0]), actions[1..]))
  }

  lemma {:induction false} LookedAfterIff(s: Journal, actions: seq<Action>)
    requires Inv(s) && LookedAfter(s)
    ensures AlwaysLookedAfter(s, actions) <==> NeverDrops(s, actions)
    ensures NeverDrops(s, actions) ==> LookedAfter(Run(s, actions))
    decreases |actions|
  {
    if actions != [] {
      StepKeeps(s, actions[0]);
      StepLooksAfterIff(s, actions[0]);
      hide Inv, Step, LookedAfter, Drops;
      if !Drops(s, actions[0]) { LookedAfterIff(Step(s, actions[0]), actions[1..]); }
    }
  }

  /** A stored run is looked after in every state of a run of the system, crashes, failing
      recoveries, failing reads and lost requests included, exactly when no step drops it. */
  lemma {:induction false} StoredRunsAreLookedAfterIff(actions: seq<Action>)
    ensures AlwaysLookedAfter(FRESH, actions) <==> NeverDrops(FRESH, actions)
  {
    LookedAfterIff(FRESH, actions);
  }

  // ----- the ways to drop a run, as runs ------------------------------

  const WORKS := Finishing(true, Ok, Ok)
  const NO_ANSWER := Answer(Ok, false, WORKS)

  /** Nothing the process does with its record will end it: only a restart is left. */
  ghost predicate Stuck(s: Journal) {
    && s.disk.Some? && s.place.Idle? && !LookedAfter(s)
    && forall a: Action :: !a.Crash? && !a.VerifyRuntime? ==> Step(s, a) == s
  }

  lemma RunCons(s: Journal, a: Action, rest: seq<Action>)
    ensures Run(s, [a] + rest) == Run(Step(s, a), rest)
  {
    assert ([a] + rest)[1..] == rest;
  }

  /** The first persist took effect and raised: submitting the run again answers with its
      id, although nothing of it was sent and no one will send it. */
  lemma {:induction false} ForgottenRunIsNeverSent()
    ensures var s := Run(FRESH, [Submit(0, 1, false, false)] + [Advance(FailAfter, NO_ANSWER)]);
            Stuck(s) && s.disk.value.status.Prepared? && s.memory.None? && s.sent == []
  {
    var s1 := Step(FRESH, Submit(0, 1, false, false));
    RunCons(FRESH, Submit(0, 1, false, false), [Advance(FailAfter, NO_ANSWER)]);
    RunCons(s1, Advance(FailAfter, NO_ANSWER), []);
  }

  /** Preparing the artifacts failed after a capability was made, and revoking it failed
      too: a loaded, prepared run, with a live capability and nobody to end it. */
  lemma {:induction false} UnrevokedRunIsStuck(answer: Answer)
    requires !answer.finishing.revoke.Ok?
    ensures var s := Run(FRESH, [Submit(0, 1, false, true)] + ([Advance(Ok, NO_ANSWER)]
                     + ([Advance(FailAfter, NO_ANSWER)] + [Advance(Ok, answer)])));
            && Stuck(s) && s.disk.value.status.Prepared? && s.memory == s.disk && s.sent == []
            && s.attempts == map[] && (answer.finishing.revoke.FailBefore? ==> s.live)
  {
    var s1 := Step(FRESH, Submit(0, 1, false, true));
    var s2 := Step(s1, Advance(Ok, NO_ANSWER));
    var s3 := Step(s2, Advance(FailAfter, NO_ANSWER));
    RunCons(FRESH, Submit(0, 1, false, true),
            [Advance(Ok, NO_ANSWER)] + ([Advance(FailAfter, NO_ANSWER)] + [Advance(Ok, answer)]));
    RunCons(s1, Advance(Ok, NO_ANSWER), [Advance(FailAfter, NO_ANSWER)] + [Advance(Ok, answer)]);
    RunCons(s2, Advance(FailAfter, NO_ANSWER), [Advance(Ok, answer)]);
    RunCons(s3, Advance(Ok, answer), []);
  }

  function Fine(n: nat): seq<Action> {
    if n == 0 then [] else [Advance(Ok, NO_ANSWER)] + Fine(n - 1)
  }

  /** The dispatching status was not persisted, and neither was the cleanup request: the
      run waits for a cleanup that no retry entry stands for, until someone stops it. */
  lemma {:induction false} UnpersistedCleanupWaits(answer: Answer, again: Answer)
    ensures var s := Run(FRESH, [Submit(0, 1, false, false)] + (Fine(4)
                     + ([Advance(FailBefore, NO_ANSWER)] + [Advance(FailBefore, answer)])));
            && !LookedAfter(s) && s.memory.Some? && s.memory.value.status.CleanupPending? && s.attempts == map[]
            && (forall a: Action :: a.Submit? || a.Advance? || a.Respond? || a.Tick? || a.Recover? ==> Step(s, a) == s)
            && LookedAfter(Step(s, RequestCleanup(Ok, again))) && LookedAfter(Step(s, SchedulerExit(Ok, again)))
  {
    var fails := [Advance(FailBefore, NO_ANSWER)] + [Advance(FailBefore, answer)];
    var s1 := Step(FRESH, Submit(0, 1, false, false));
    RunCons(FRESH, Submit(0, 1, false, false), Fine(4) + fails);
    FineSteps(s1, fails);
    var s5 := s1.(disk := s1.memory, place := ThirdPersist);
    RunCons(s5, Advance(FailBefore, NO_ANSWER), [Advance(FailBefore, answer)]);
    var s6 := Step(s5, Advance(FailBefore, NO_ANSWER));
    RunCons(s6, Advance(FailBefore, answer), []);
    var s7 := Step(s6, Advance(FailBefore, answer));
    hide Run, Fine;
    WaitingIsStuck(s7, again);
  }

  lemma WaitingIsStuck(s: Journal, again: Answer)
    requires s.place.Idle? && s.memory.Some? && s.disk.Some? && !s.starting && s.memory.value.status.CleanupPending?
    requires s.memory.value.request.Some? && s.attempts == map[] && s.evidence.requested == {}
    ensures forall a: Action :: a.Submit? || a.Advance? || a.Respond? || a.Tick? || a.Recover? ==> Step(s, a) == s
    ensures !LookedAfter(s) && LookedAfter(Step(s, RequestCleanup(Ok, again)))
    ensures LookedAfter(Step(s, SchedulerExit(Ok, again)))
  {
    SendResolves(s, s.memory.value.request.value, again);
    hide SendCleanup;
  }

  lemma FineStep(s: Journal, n: nat, rest: seq<Action>)
    requires n > 0
    ensures Run(s, Fine(n) + rest) == Run(Step(s, Advance(Ok, NO_ANSWER)), Fine(n - 1) + rest)
  {
    assert Fine(n) + rest == [Advance(Ok, NO_ANSWER)] + (Fine(n - 1) + rest);
    RunCons(s, Advance(Ok, NO_ANSWER), Fine(n - 1) + rest);
  }

  function Next(place: Place): Place {
    match place
    case FirstPersist => Preparing
    case Preparing => SecondPersist
    case SecondPersist => Recording
    case _ => ThirdPersist
  }

  lemma FineAdvance(s: Journal)
    requires s.memory == Some(Dispatch(Prepared, NoArtifacts, false, None)) && !s.starting
    requires s.place.FirstPersist? || (s.disk == s.memory && s.place in {Preparing, SecondPersist, Recording})
    ensures Step(s, Advance(Ok, NO_ANSWER)) == s.(disk := s.memory, place := Next(s.place))
  {
  }

  lemma FineTurn(s: Journal, n: nat, rest: seq<Action>)
    requires n > 0 && s.memory == Some(Dispatch(Prepared, NoArtifacts, false, None)) && !s.starting
    requires s.place.FirstPersist? || (s.disk == s.memory && s.place in {Preparing, SecondPersist, Recording})
    ensures Run(s, Fine(n) + rest) == Run(s.(disk := s.memory, place := Next(s.place)), Fine(n - 1) + rest)
  {
    FineStep(s, n, rest);
    FineAdvance(s);
    hide Run, Fine, Step;
  }

  /** The first four statements of a start without artifacts go well. */
  lemma {:induction false} FineSteps(s: Journal, rest: seq<Action>)
    requires s == Step(FRESH, Submit(0, 1, false, false))
    ensures Run(s, Fine(4) + rest) == Run(s.(disk := s.memory, place := ThirdPersist), rest)
  {
    assert Fine(0) + rest == rest;
    assert s.memory == Some(Dispatch(Prepared, NoArtifacts, false, None)) && !s.starting && s.place.FirstPersist?;
    hide Run, Fine, Step;
    var t2 := s.(disk := s.memory, place := Preparing);
    FineTurn(s, 4, rest);
    FineTurn(t2, 3, rest);
    FineTurn(t2.(place := SecondPersist), 2, rest);
    FineTurn(t2.(place := Recording), 1, rest);
  }

  const LOST := Answer(FailBefore, false, WORKS)

  /** The state after a crash while the roots were being sent. */
  const TORN :=
    FRESH.(disk := Some(Dispatch(Dispatching, NoArtifacts, false, None)), roots := 1, current := Some(0),
           starting := true)

  function TornRun(): seq<Action> {
    [Submit(0, 1, false, false)] + (Fine(4) + ([Advance(Ok, NO_ANSWER)] + [Crash]))
  }

  lemma {:induction false} TornIs()
    ensures Run(FRESH, TornRun()) == TORN
  {
    var rest := [Advance(Ok, NO_ANSWER)] + [Crash];
    var s1 := Step(FRESH, Submit(0, 1, false, false));
    RunCons(FRESH, Submit(0, 1, false, false), Fine(4) + rest);
    FineSteps(s1, rest);
    var s5 := s1.(disk := s1.memory, place := ThirdPersist);
    RunCons(s5, Advance(Ok, NO_ANSWER), [Crash]);
    var s6 := Step(s5, Advance(Ok, NO_ANSWER));
    RunCons(s6, Crash, []);
    assert Run(Step(s6, Crash), []) == Step(s6, Crash);
    hide Run, Fine;
    assert Step(s6, Crash) == TORN;
  }

  /** A crash while dispatching and a recovery that cannot read the run: its record is
      passed over, and nobody looks at it before the next restart. */
  lemma {:induction false} UnreadRunIsPassedOver(answer: Answer)
    ensures var s := Step(Run(FRESH, TornRun()), Recover(false, Ok, answer));
            Stuck(s) && s.disk.value.status.Dispatching? && s.memory.None?
  {
    TornIs();
    hide Run, TornRun;
  }

  /** The same crash and a recovery that reads the run, whose cleanup request is lost; at
      the next tick the run cannot be read, and its retry entry goes. */
  lemma {:induction false} UnreadRunIsNotRetried(due: bool, answer: Answer)
    ensures var s := Step(Step(Run(FRESH, TornRun()), Recover(true, Ok, LOST)), Tick(0, false, due, answer));
            && Stuck(s) && s.disk.value.status.CleanupPending? && s.memory.None? && s.attempts == map[]
            && s.evidence.requested == {}
  {
    TornIs();
    hide Run, TornRun;
    RecoveredIs();
  }

  lemma RecoveredIs()
    ensures Step(TORN, Recover(true, Ok, LOST))
            == TORN.(disk := Some(Dispatch(CleanupPending, NoArtifacts, false, Some(0))), nextRequest := 1,
                     attempts := map[0 := 1], starting := false)
  {
  }

  // ----- recovery and the retry loop ----------------------------------------

  predicate Works(finishing: Finishing) {
    finishing.readable && finishing.revoke.Ok? && finishing.persist.Ok?
  }

  lemma WorkingRecovery(s: Journal, answer: Answer)
    requires Inv(s) && s.starting && Works(answer.finishing)
    ensures !RecoverRaises(Serving(s), Ok, answer)
  {
  }

  lemma CrashedIs(actions: seq<Action>)
    ensures var s := Step(Run(FRESH, actions), Crash);
            Inv(s) && s.starting && s.memory.None? && s.place.Idle? && s.disk == Run(FRESH, actions).disk
  {
    RunKeeps(FRESH, actions);
    StepKeeps(Run(FRESH, actions), Crash);
    hide Inv, Run;
  }

  lemma RecoveredResolved(s: Journal, answer: Answer)
    requires Inv(s) && s.starting && s.disk.Some? && Works(answer.finishing)
    ensures var t := Step(s, Recover(true, Ok, answer));
            Resolved(t) && !t.starting && t.memory.None? && t.place.Idle?
  {
    WorkingRecovery(s, answer);
    ServingKeeps(s);
    hide Inv, Recovering, RecoverRaises, Resolved, Serving;
    RecoverResolves(s, Ok, answer);
    RecoverKeeps(s, true, Ok, answer);
    hide DoRecover;
  }

  /** Recovery resolves every run whose submission was cut short, whatever becomes of the
      messages: it ends given up, or its cleanup is persisted and will be retried. */
  lemma {:induction false} RecoveryResolves(actions: seq<Action>, answer: Answer)
    requires Run(FRESH, actions).disk.Some? && Works(answer.finishing)
    ensures var s := Step(Step(Run(FRESH, actions), Crash), Recover(true, Ok, answer));
            && !s.starting && s.memory.None? && s.disk.Some?
            && (|| s.disk.value.status.Active? || s.disk.value.status.Terminal?
                || (s.disk.value.status.CleanupPending?
                    && s.disk.value.request.Some? && s.disk.value.request.value in s.attempts))
  {
    CrashedIs(actions);
    var s := Step(Run(FRESH, actions), Crash);
    hide Inv, Run, Step;
    RecoveredResolved(s, answer);
  }

  /** One due tick for the request after another, each able to read the run; the answers
      say what comes of them. */
  function DueTicks(request: RequestId, answers: seq<Answer>): seq<Action> {
    if answers == [] then [] else [Tick(request, true, true, answers[0])] + DueTicks(request, answers[1..])
  }

  /** Nothing fails to be read or recorded; the messages may be lost or refused. */
  predicate AllWork(answers: seq<Answer>) {
    forall i :: 0 <= i < |answers| ==> Works(answers[i].finishing)
  }

  predicate Waiting(s: Journal, request: RequestId) {
    s.place.Idle? && !s.starting && Awaits(s, request) && request in s.attempts
  }

  /** The run was given up, for a reason. */
  predicate Over(s: Journal, request: RequestId) {
    && s.place.Idle? && !s.starting && request !in s.attempts
    && Now(s).Some? && Now(s).value.status.Terminal?
    && (request in s.evidence.confirmed || s.evidence.shutdownRequested)
  }

  lemma GiveUpEnds(s: Journal, request: RequestId, finishing: Finishing)
    requires Waiting(s, request) && Works(finishing)
    requires request in s.evidence.confirmed || s.evidence.shutdownRequested
    ensures Over(GiveUp(s, request, finishing), request)
  {
  }

  lemma {:induction false} WaitingTick(s: Journal, request: RequestId, answer: Answer)
    requires Waiting(s, request) && Works(answer.finishing)
    ensures var t := Step(s, Tick(request, true, true, answer));
            || Over(t, request)
            || (s.attempts[request] < MAX_ATTEMPTS
                && Waiting(t, request) && t.attempts[request] == s.attempts[request] + 1)
  {
    if s.attempts[request] >= MAX_ATTEMPTS {
      GiveUpEnds(ShutDown(s), request, answer.finishing);
    } else {
      var t := Heard(Handed(Counted(s, request), request), request);
      assert Waiting(t, request) && request in t.evidence.confirmed;
      GiveUpEnds(t, request, answer.finishing);
    }
    hide GiveUp;
  }

  lemma {:induction false} OverStaysOver(s: Journal, request: RequestId, answers: seq<Answer>)
    requires request !in s.attempts
    ensures Run(s, DueTicks(request, answers)) == s
    decreases |answers|
  {
    if answers != [] {
      RunCons(s, Tick(request, true, true, answers[0]), DueTicks(request, answers[1..]));
      OverStaysOver(s, request, answers[1..]);
    }
  }

  /** Left alone, the retry loop stops, whatever becomes of its messages: with the
      attempts that are left and one more due tick the run is given up, because its
      request was confirmed or scheduler shutdown was requested. */
  lemma {:induction false} RetriesEnd(s: Journal, request: RequestId, answers: seq<Answer>)
    requires Waiting(s, request) && AllWork(answers)
    requires answers != [] && |answers| + s.attempts[request] > MAX_ATTEMPTS
    ensures Over(Run(s, DueTicks(request, answers)), request)
    decreases |answers|
  {
    var t := Step(s, Tick(request, true, true, answers[0]));
    WaitingTick(s, request, answers[0]);
    RunCons(s, Tick(request, true, true, answers[0]), DueTicks(request, answers[1..]));
    if Over(t, request) {
      OverStaysOver(t, request, answers[1..]);
    } else {
      assert AllWork(answers[1..]);
      RetriesEnd(t, request, answers[1..]);
    }
  }

  lemma {:induction false} SettledStaysSettled(s: Journal, request: RequestId, answers: seq<Answer>)
    requires Settled(s)
    ensures Settled(Run(s, DueTicks(request, answers)))
    decreases |answers|
  {
    if answers != [] {
      RunCons(s, Tick(request, true, true, answers[0]), DueTicks(request, answers[1..]));
      SettledStaysSettled(Step(s, Tick(request, true, true, answers[0])), request, answers[1..]);
    }
  }

  function RequestOf(s: Journal): RequestId {
    if Now(s).Some? && Now(s).value.request.Some? then Now(s).value.request.value else 0
  }

  lemma {:induction false} ResolvedRunEnds(s: Journal, answers: seq<Answer>)
    requires Resolved(s) && s.place.Idle? && !s.starting && AllWork(answers) && |answers| > MAX_ATTEMPTS
    ensures Settled(Run(s, DueTicks(RequestOf(s), answers)))
  {
    if Settled(s) {
      SettledStaysSettled(s, RequestOf(s), answers);
    } else {
      RetriesEnd(s, RequestOf(s), answers);
    }
  }

  /** Every stored run ends active or given up when no step dropped it: recovery, if it is
      still to come, and due ticks are enough, whatever becomes of their messages. */
  lemma {:induction false} StoredRunsEnd(actions: seq<Action>, answer: Answer, answers: seq<Answer>)
    requires NeverDrops(FRESH, actions) && Works(answer.finishing) && AllWork(answers) && |answers| > MAX_ATTEMPTS
    requires var s := Run(FRESH, actions); s.disk.Some? && s.place.Idle?
    ensures var s := Step(Run(FRESH, actions), Recover(true, Ok, answer));
            Settled(Run(s, DueTicks(RequestOf(s), answers)))
  {
    var s := Run(FRESH, actions);
    RunKeeps(FRESH, actions);
    LookedAfterIff(FRESH, actions);
    hide Inv, Run, Recovering;
    if s.starting { RecoveredResolved(s, answer); }
    hide Step, NeverDrops, Settled, Retried;
    if !s.starting { IdleRecovery(s, answer); }
    ResolvedRunEnds(Step(s, Recover(true, Ok, answer)), answers);
  }

  lemma IdleRecovery(s: Journal, answer: Answer)
    requires !s.starting
    ensures Step(s, Recover(true, Ok, answer)) == s
  {
  }

  /** A crash anywhere, whatever was dropped before it, then recovery, then the retry
      loop alone: the run ends active or given up. */
  lemma {:induction false} CrashedRunsEnd(actions: seq<Action>, answer: Answer, answers: seq<Answer>)
    requires Run(FRESH, actions).disk.Some?
    requires Works(answer.finishing) && AllWork(answers) && |answers| > MAX_ATTEMPTS
    ensures var s := Step(Step(Run(FRESH, actions), Crash), Recover(true, Ok, answer));
            Settled(Run(s, DueTicks(RequestOf(s), answers)))
  {
    CrashedIs(actions);
    var s := Step(Run(FRESH, actions), Crash);
    hide Inv, Run, Step;
    RecoveredResolved(s, answer);
    ResolvedRunEnds(Step(s, Recover(true, Ok, answer)), answers);
  }

  // ----- what an answer, a tick and a recovery do ---------------------------

  /** The record that counts: in memory when the run is loaded, else on disk. */
  predicate Holds(s: Journal, d: Dispatch) {
    s.memory == Some(d) || (s.memory == None && s.disk == Some(d))
  }

  /** The confirmation of the request a run waits for ends it, for good and without a
      capability; any other confirmation changes no record. */
  lemma ConfirmationEnds(s: Journal, request: RequestId, d: Dispatch, finishing: Finishing)
    requires s.place.Idle? && !s.starting && request in s.evidence.requested && Holds(s, d) && Works(finishing)
    ensures var t := Step(s, Respond(request, finishing));
            && request in t.evidence.confirmed && request !in t.attempts
            && (if d.status.CleanupPending? && d.request == Some(request) then
                  && t.disk.Some? && t.disk.value.status.Terminal? && Holds(t, t.disk.value)
                  && t.disk.value.request == Some(request)
                  && (d.owned ==> t.disk.value.artifacts.Revoked? && (!d.artifacts.Revoked? ==> !t.live))
                else t.memory == s.memory && t.disk == s.disk && t.live == s.live)
  {
  }

  /** A verified cleanup of Ray after a scheduler exit ends a loaded run that waits. */
  lemma RuntimeCleanupEnds(s: Journal, d: Dispatch, finishing: Finishing)
    requires s.place.Idle? && !s.starting && s.memory == Some(d) && Works(finishing)
    requires d.status.CleanupPending? && d.request.Some?
    ensures var t := Step(s, VerifyRuntime(finishing));
            && t.evidence.runtimeVerified && t.memory == t.disk && t.disk.Some? && t.disk.value.status.Terminal?
            && d.request.value !in t.attempts
  {
  }

  /** A due tick sends the awaited request once more and counts it, before the last attempt;
      one that is not due leaves it. */
  lemma TickResends(s: Journal, request: RequestId, d: Dispatch, due: bool, answer: Answer)
    requires s.place.Idle? && !s.starting && Holds(s, d) && d.status.CleanupPending? && d.request == Some(request)
    requires request in s.attempts && s.attempts[request] < MAX_ATTEMPTS
    requires !(answer.send.Ok? && answer.confirms)
    ensures var t := Step(s, Tick(request, true, due, answer));
            if !due then t == s
            else
              && t == s.(attempts := s.attempts[request := s.attempts[request] + 1], evidence := t.evidence)
              && t.evidence == s.evidence.(requested := t.evidence.requested)
              && (answer.send.FailBefore? ==> t.evidence == s.evidence)
              && (!answer.send.FailBefore? ==> t.evidence.requested == s.evidence.requested + {request})
  {
  }

  /** What recovery does with a record: nothing to one that is done, the end of one that was
      only prepared, and a stored request, sent and retried, for any other; a request that
      was stored before is sent again. */
  lemma RecoveryIs(s: Journal, d: Dispatch, request: RequestId, answer: Answer)
    requires s.starting && s.memory == None && s.place.Idle? && s.disk == Some(d) && Works(answer.finishing)
    requires !(answer.send.Ok? && answer.confirms)
    requires if d.status.CleanupPending? then d.request == Some(request) else request == s.nextRequest
    ensures var t := Step(s, Recover(true, Ok, answer));
            && !t.starting && t.memory == None && t.disk.Some?
            && match d.status
               case Active => t.disk == s.disk && t.attempts == map[] && t.evidence == s.evidence
               case Terminal => t.disk == s.disk && t.attempts == map[] && t.evidence == s.evidence
               case Prepared => t.disk.value.status.Terminal? && t.attempts == map[] && t.evidence == s.evidence
               case _ =>
                 && t.disk == Some(d.(status := CleanupPending, request := Some(request)))
                 && t.attempts == map[request := 1]
                 && (if answer.send.FailBefore? then t.evidence.requested == s.evidence.requested
                     else t.evidence.requested == s.evidence.requested + {request})
  {
  }

  /** A cleanup asked for by hand or a deadline: a run that waits already has its request
      sent again, one that was being dispatched gets a stored request first. */
  lemma CleanupRequestIs(s: Journal, d: Dispatch, request: RequestId, answer: Answer)
    requires s.place.Idle? && !s.starting && s.memory == Some(d) && !(answer.send.Ok? && answer.confirms)
    requires if d.status.CleanupPending? then d.request == Some(request) else request == s.nextRequest
    ensures var t := Step(s, RequestCleanup(Ok, answer));
            if d.status.Dispatching? || d.status.CleanupPending? then
              && t.memory == Some(d.(status := CleanupPending, request := Some(request)))
              && (d.status.Dispatching? ==> t.disk == t.memory)
              && request in t.attempts
              && (!answer.send.FailBefore? ==> request in t.evidence.requested)
            else t == s
  {
  }

  // ----- loaded runs --------------------------------------------------------

  /** A stored run is loaded, unless a crash unloaded it. */
  predicate Loaded(s: Journal) {
    s.disk.Some? ==> s.memory.Some?
  }

  /** A crash, or a first persist that took effect and still failed: the run is taken
      out of memory again, its record stays. */
  predicate Forgets(s: Journal, a: Action) {
    || (a.Crash? && s.disk.Some?)
    || (a.Advance? && !s.starting && s.place.FirstPersist? && a.outcome.FailAfter?)
  }

  lemma {:induction false} StepStaysLoadedIff(s: Journal, a: Action)
    requires Inv(s) && Loaded(s)
    ensures Loaded(Step(s, a)) <==> !Forgets(s, a)
  {
    match a
    case Advance(outcome, answer) =>
      GiveUpFrames(s.(place := Idle), 0, answer.finishing);
      CleanupFrames(s.(place := Idle), outcome, answer);
      hide FinishFailure, DoRequestCleanup;
    case RequestCleanup(outcome, answer) =>
      CleanupFrames(s, outcome, answer);
      hide DoRequestCleanup;
    case Tick(request, _, _, answer) =>
      GiveUpFrames(ShutDown(s), request, answer.finishing);
      SendFrames(s, request, answer);
      hide GiveUp, SendCleanup;
    case Respond(request, finishing) =>
      GiveUpFrames(Heard(s, request), request, finishing);
      hide Confirm;
    case SchedulerExit(outcome, answer) =>
      CleanupFrames(s, outcome, answer);
      hide DoRequestCleanup;
    case VerifyRuntime(finishing) =>
      if s.memory.Some? && s.memory.value.request.Some? {
        GiveUpFrames(s.(evidence := s.evidence.(runtimeVerified := true)), s.memory.value.request.value, finishing);
      }
      hide Confirm;
    case Recover(_, outcome, answer) =>
      if s.starting { RecoveringKeeps(s, outcome, answer); }
      hide Recovering, RecoverRaises;
    case _ =>
  }

  predicate AlwaysLoaded(s: Journal, actions: seq<Action>)
    decreases |actions|
  {
    Loaded(s) && (actions == [] || AlwaysLoaded(Step(s, actions[0]), actions[1..]))
  }

  predicate NeverForgets(s: Journal, actions: seq<Action>)
    decreases |actions|
  {
    actions == [] || (!Forgets(s, actions[0]) && NeverForgets(Step(s, actions[0]), actions[1..]))
  }

  lemma {:induction false} LoadedIff(s: Journal, actions: seq<Action>)
    requires Inv(s) && Loaded(s)
    ensures AlwaysLoaded(s, actions) <==> NeverForgets(s, actions)
    decreases |actions|
  {
    if actions != [] {
      StepKeeps(s, actions[0]);
      StepStaysLoadedIff(s, actions[0]);
      hide Inv, Step, Loaded, Forgets;
      if !Forgets(s, actions[0]) { LoadedIff(Step(s, actions[0]), actions[1..]); }
    }
  }

  /** A stored run is in memory in every state of a run exactly when the process does not
      crash and no first persist fails after it took effect. */
  lemma {:induction false} StoredRunsAreLoadedIff(actions: seq<Action>)
    ensures AlwaysLoaded(FRESH, actions) <==> NeverForgets(FRESH, actions)
  {
    LoadedIff(FRESH, actions);
  }

  lemma {:induction false} RunSnoc(s: Journal, actions: seq<Action>, a: Action)
    ensures Run(s, actions + [a]) == Step(Run(s, actions), a)
    decreases |actions|
  {
    if actions != [] {
      assert (actions + [a])[1..] == actions[1..] + [a];
      RunSnoc(Step(s, actions[0]), actions[1..], a);
    } else {
      assert [] + [a] == [a] && [a][1..] == [];
    }
  }

  // ----- the dispatcher -----------------------------------------------------

  /** How each statement of a start goes. */
  datatype Script = Script(
    first: Outcome, prepare: Outcome, second: Outcome, record: Outcome, third: Outcome,
    sends: seq<Outcome>, last: Outcome, cleanup: Outcome, answer: Answer)

  class Dispatcher {
    var staticRun: Option<Dispatch>
    var storedRun: Option<Dispatch>
    var capabilityLive: bool
    var nextRequest: RequestId
    var cleanupRetries: map<RequestId, nat>
    ghost var place: Place
    ghost var roots: nat
    ghost var current: Option<Submission>
    ghost var senders: set<Submission>
    ghost var sent: seq<int>
    ghost var evidence: Evidence
    var starting: bool

    ghost function State(): Journal
      reads this
    {
      Journal(staticRun, storedRun, place, roots, current, senders, sent, capabilityLive,
              evidence, nextRequest, cleanupRetries, starting)
    }

    constructor ()
      ensures State() == FRESH
    {
      staticRun, storedRun, capabilityLive, nextRequest, cleanupRetries := None, None, false, 0, map[];
      place, roots, current, senders, sent := Idle, 0, None, {}, [];
      evidence, starting := Evidence({}, {}, false, false), false;
    }

    /** Memory is changed before the write is tried. */
    method PersistStaticRun(d: Dispatch, outcome: Outcome)
      modifies this`staticRun, this`storedRun
      ensures State() == Persist(old(State()), d, outcome)
    {
      if staticRun.Some? { staticRun := Some(d); }
      if !outcome.FailBefore? { storedRun := Some(d); }
    }

    method LoadDispatch() returns (d: Option<Dispatch>)
      ensures d == Now(State())
    {
      return if staticRun.Some? then staticRun else storedRun;
    }

    /** `_revoke_dispatch_artifacts`. */
    method RevokeDispatchArtifacts(d: Dispatch, revoke: Outcome) returns (ok: bool)
      modifies this`capabilityLive
      ensures State() == if NeedsRevoking(d) then Revoking(old(State()), revoke) else old(State())
      ensures ok <==> !NeedsRevoking(d) || revoke.Ok?
    {
      ok := true;
      if d.owned && !d.artifacts.Revoked? {
        if !revoke.FailBefore? { capabilityLive := false; }
        ok := revoke.Ok?;
      }
    }

    /** `load_run` for a run that is not loaded; false when it raises. */
    method ReadStored(readable: bool) returns (ok: bool)
      ensures ok <==> staticRun.Some? || readable
    {
      ok := staticRun.Some? || readable;
    }

    /** False when it raises. */
    method FinishWorkflowDispatchFailure(finishing: Finishing) returns (ok: bool)
      modifies this`staticRun, this`storedRun, this`capabilityLive
      ensures State() == FinishFailure(old(State()), finishing) && ok == !FinishRaises(old(State()), finishing)
    {
      ok := ReadStored(finishing.readable);
      if !ok { return; }
      var loaded := LoadDispatch();
      if loaded.None? || loaded.value.status.Terminal? { return; }
      var d := loaded.value;
      ok := RevokeDispatchArtifacts(d, finishing.revoke);
      hide Revoking;
      if !ok { return; }
      var revoked := if d.owned then Revoked else d.artifacts;
      PersistStaticRun(Dispatch(Terminal, revoked, d.owned, d.request), finishing.persist);
      ok := finishing.persist.Ok?;
    }

    method ClearWorkflowCleanup(request: RequestId)
      modifies this`cleanupRetries
      ensures State() == Cleared(old(State()), request)
    {
      cleanupRetries := cleanupRetries - {request};
    }

    method StillAwaits(request: RequestId) returns (awaits: bool)
      ensures awaits == Awaits(State(), request)
    {
      var loaded := LoadDispatch();
      return loaded.Some? && loaded.value.status.CleanupPending? && loaded.value.request == Some(request);
    }

    /** A read that raises answers no. */
    method CleanupIsPending(request: RequestId, readable: bool) returns (pending: bool)
      ensures pending == IsPending(State(), request, readable)
    {
      pending := ReadStored(readable);
      if pending { pending := StillAwaits(request); }
    }

    /** The retry entry is dropped after the failure was recorded. */
    method FinishAndClear(request: RequestId, finishing: Finishing) returns (ok: bool)
      modifies this`staticRun, this`storedRun, this`capabilityLive, this`cleanupRetries
      ensures State() == GiveUp(old(State()), request, finishing) && ok == !FinishRaises(old(State()), finishing)
    {
      hide FinishFailure, FinishRaises, State, Cleared;
      ok := FinishWorkflowDispatchFailure(finishing);
      if ok { ClearWorkflowCleanup(request); }
    }

    method ConfirmWorkflowCleanup(request: RequestId, finishing: Finishing) returns (ok: bool)
      modifies this`staticRun, this`storedRun, this`capabilityLive, this`cleanupRetries
      ensures State() == Confirm(old(State()), request, finishing)
      ensures ok == !ConfirmRaises(old(State()), request, finishing)
    {
      hide GiveUp, FinishRaises, Cleared;
      ok := ReadStored(finishing.readable);
      if !ok { return; }
      var pending := StillAwaits(request);
      if pending { ok := FinishAndClear(request, finishing); }
      else { ClearWorkflowCleanup(request); }
    }

    method CountAttempt(request: RequestId)
      modifies this`cleanupRetries
      ensures State() == Counted(old(State()), request)
    {
      var tries := if request in cleanupRetries then cleanupRetries[request] else 0;
      cleanupRetries := cleanupRetries[request := tries + 1];
    }

    ghost method HandOver(request: RequestId)
      modifies this`evidence
      ensures State() == Handed(old(State()), request)
    {
      evidence := Asked(evidence, request);
    }

    ghost method Hear(request: RequestId)
      modifies this`evidence
      ensures State() == Heard(old(State()), request)
    {
      evidence := Confirmed(evidence, request);
    }

    /** The attempt is counted first; a send that raises is caught, acting on a
        confirmation is not. */
    method SendWorkflowCleanupRequest(request: RequestId, answer: Answer) returns (ok: bool)
      modifies this`staticRun, this`storedRun, this`capabilityLive, this`cleanupRetries, this`evidence
      ensures State() == SendCleanup(old(State()), request, answer)
      ensures ok == !SendRaises(old(State()), request, answer)
    {
      SendingChangesNothing(State(), request, answer.finishing);
      hide Confirm, Counted, Handed, Heard, ConfirmRaises, State;
      ok := true;
      CountAttempt(request);
      if answer.send.FailBefore? { return; }
      HandOver(request);
      if answer.send.Ok? && answer.confirms {
        Hear(request);
        ok := ConfirmWorkflowCleanup(request, answer.finishing);
      }
    }

    method MarkCleanupPending(d: Dispatch, outcome: Outcome) returns (request: RequestId)
      modifies this`staticRun, this`storedRun, this`nextRequest
      ensures State() == MarkCleanup(old(State()), d, outcome) && request == old(nextRequest)
    {
      request := nextRequest;
      nextRequest := nextRequest + 1;
      PersistStaticRun(d.(status := CleanupPending, request := Some(request)), outcome);
    }

    /** A failed persist raises before anything is sent. */
    method RequestWorkflowCleanup(outcome: Outcome, answer: Answer) returns (ok: bool)
      modifies this`staticRun, this`storedRun, this`capabilityLive, this`cleanupRetries, this`evidence, this`nextRequest
      ensures State() == DoRequestCleanup(old(State()), outcome, answer)
      ensures ok == !CleanupRaises(old(State()), outcome, answer)
    {
      ok := true;
      var loaded := LoadDispatch();
      hide SendCleanup, MarkCleanup, SendRaises;
      if loaded.None? { return; }
      if loaded.value.status.CleanupPending? {
        if loaded.value.request.None? { return false; }
        ok := SendWorkflowCleanupRequest(loaded.value.request.value, answer);
        return;
      }
      var request := MarkCleanupPending(loaded.value, outcome);
      if !outcome.Ok? { return false; }
      ok := SendWorkflowCleanupRequest(request, answer);
    }

    ghost method AskForShutdown()
      modifies this`evidence
      ensures State() == ShutDown(old(State()))
    {
      evidence := evidence.(shutdownRequested := true);
    }

    /** One entry of the retry tick. */
    method RetryPendingWorkflowCleanup(request: RequestId, readable: bool, due: bool, answer: Answer)
      requires place.Idle? && request in cleanupRetries
      modifies this`staticRun, this`storedRun, this`capabilityLive, this`cleanupRetries, this`evidence
      ensures State() == DoTick(old(State()), request, readable, due, answer)
    {
      hide SendCleanup, GiveUp, Cleared, ShutDown, IsPending, FinishRaises, SendRaises;
      var pending := CleanupIsPending(request, readable);
      var ok;
      if !pending {
        ClearWorkflowCleanup(request);
      } else if due {
        if cleanupRetries[request] >= MAX_ATTEMPTS {
          AskForShutdown();
          ok := FinishAndClear(request, answer.finishing);
        } else {
          ok := SendWorkflowCleanupRequest(request, answer);
        }
      }
    }

    /** `_handle_scheduler_exit`, for this run. */
    method HandleSchedulerExit(outcome: Outcome, answer: Answer) returns (ok: bool)
      requires place.Idle?
      modifies this`staticRun, this`storedRun, this`capabilityLive, this`cleanupRetries, this`evidence, this`nextRequest
      ensures State() == DoSchedulerExit(old(State()), outcome, answer)
    {
      hide DoRequestCleanup, CleanupRaises;
      ok := true;
      if staticRun.None? { return; }
      var d := staticRun.value;
      if d.status.CleanupPending? {
        if d.request.Some? && d.request.value !in cleanupRetries {
          cleanupRetries := cleanupRetries[d.request.value := 0];
        }
      } else if d.status.Dispatching? {
        ok := RequestWorkflowCleanup(outcome, answer);
      }
    }

    /** The dispatches of the recovery, for a record that was read. */
    method RecoverStored(outcome: Outcome, answer: Answer) returns (ok: bool)
      requires staticRun.None?
      modifies this`staticRun, this`storedRun, this`capabilityLive, this`cleanupRetries, this`evidence, this`nextRequest
      ensures State() == Recovering(old(State()), outcome, answer)
      ensures ok == !RecoverRaises(old(State()), outcome, answer)
    {
      hide DoRequestCleanup, FinishFailure, FinishRaises, CleanupRaises;
      ok := true;
      if storedRun.None? || storedRun.value.status.Active? || storedRun.value.status.Terminal? {
      } else if storedRun.value.status.Prepared? {
        ok := FinishWorkflowDispatchFailure(AtHand(answer.finishing));
      } else {
        ok := RequestWorkflowCleanup(outcome, answer);
      }
    }

    /** What is in memory dies with the process. */
    method Die()
      modifies this`staticRun, this`cleanupRetries, this`place, this`starting
      ensures State() == DoCrash(old(State()))
    {
      staticRun, cleanupRetries, place, starting := None, map[], Idle, true;
    }

    method Serve()
      modifies this`starting, this`cleanupRetries
      ensures State() == Serving(old(State()))
    {
      starting, cleanupRetries := false, map[];
    }

    /** The process goes on to serve only when nothing raised; `list_runs` skips what it
        cannot read. */
    method RecoverIncompleteWorkflowDispatch(readable: bool, outcome: Outcome, answer: Answer)
      requires starting && staticRun.None?
      modifies this`staticRun, this`storedRun, this`capabilityLive, this`cleanupRetries, this`evidence,
               this`nextRequest, this`starting, this`place
      ensures State() == DoRecover(old(State()), readable, outcome, answer)
    {
      hide Recovering, RecoverRaises, DoCrash;
      var ok := true;
      Serve();
      if readable { ok := RecoverStored(outcome, answer); }
      if !ok { Die(); }
    }

    // The statements of `_start_workflow`, in order.  Each tells whether it succeeded;
    // `place` follows the program counter.

    method CreateRun(submission: Submission, rootTasks: nat, artifacts: bool, owned: bool)
      requires place.Idle? && storedRun.None?
      modifies this`staticRun, this`place, this`roots, this`current
      ensures State() == DoSubmit(old(State()), submission, rootTasks, artifacts, owned)
      ensures place.FirstPersist? && roots == rootTasks && staticRun == Some(NewRecord(artifacts, owned))
    {
      staticRun := Some(NewRecord(artifacts, owned));
      place, roots, current := FirstPersist, rootTasks, Some(submission);
    }

    method PersistPrepared(outcome: Outcome) returns (ok: bool)
      requires place.FirstPersist? && staticRun.Some?
      modifies this`staticRun, this`storedRun, this`place
      ensures State() == DoAdvance(old(State()), outcome, NO_ANSWER) && ok == outcome.Ok?
      ensures place == (if ok then Preparing else Idle) && staticRun == (if ok then old(staticRun) else None)
      ensures storedRun == if outcome.FailBefore? then old(storedRun) else old(staticRun)
    {
      PersistStaticRun(staticRun.value, outcome);
      ok := outcome.Ok?;
      if !ok { staticRun := None; }
      place := if ok then Preparing else Idle;
    }

    method PrepareArtifacts(outcome: Outcome) returns (ok: bool)
      requires place.Preparing? && staticRun.Some?
      modifies this`capabilityLive, this`place
      ensures State() == DoAdvance(old(State()), outcome, NO_ANSWER) && ok == outcome.Ok?
      ensures place == (if ok then SecondPersist else Failing)
      ensures ok && staticRun.value.owned ==> capabilityLive
    {
      if staticRun.value.owned && !outcome.FailBefore? { capabilityLive := true; }
      ok := outcome.Ok?;
      place := if ok then SecondPersist else Failing;
    }

    method PersistArtifactStatus(outcome: Outcome) returns (ok: bool)
      requires place.SecondPersist? && staticRun.Some?
      modifies this`staticRun, this`storedRun, this`place
      ensures State() == DoAdvance(old(State()), outcome, NO_ANSWER) && ok == outcome.Ok?
      ensures place == (if ok then Recording else Failing)
      ensures staticRun == Some(Prepped(old(staticRun).value)) && (ok ==> storedRun == staticRun)
      ensures old(storedRun).Some? ==> storedRun.Some?
    {
      var d := staticRun.value;
      var created := if d.artifacts.Pending? then Created else d.artifacts;
      PersistStaticRun(d.(artifacts := created), outcome);
      ok := outcome.Ok?;
      place := if ok then Recording else Failing;
    }

    method RecordStartEvent(outcome: Outcome) returns (ok: bool)
      requires place.Recording? && staticRun.Some?
      modifies this`place
      ensures State() == DoAdvance(old(State()), outcome, NO_ANSWER) && ok == outcome.Ok?
      ensures place == (if ok then ThirdPersist else Failing)
    {
      ok := outcome.Ok?;
      place := if ok then ThirdPersist else Failing;
    }

    method PersistDispatching(outcome: Outcome) returns (ok: bool)
      requires place.ThirdPersist? && staticRun.Some?
      modifies this`staticRun, this`storedRun, this`place
      ensures State() == DoAdvance(old(State()), outcome, NO_ANSWER) && ok == outcome.Ok?
      ensures place == (if ok then Sending(roots) else Failing)
      ensures staticRun == Some(old(staticRun).value.(status := Dispatching)) && (ok ==> storedRun == staticRun)
      ensures old(storedRun).Some? ==> storedRun.Some?
    {
      PersistStaticRun(staticRun.value.(status := Dispatching), outcome);
      ok := outcome.Ok?;
      place := if ok then Sending(roots) else Failing;
    }

    method SendRoot(outcome: Outcome) returns (ok: bool)
      requires place.Sending? && place.left > 0 && staticRun.Some?
      modifies this`sent, this`senders, this`place
      ensures State() == DoAdvance(old(State()), outcome, NO_ANSWER) && ok == outcome.Ok?
      ensures place == (if ok then Sending(old(place).left - 1) else Failing)
      ensures sent == if outcome.FailBefore? then old(sent) else old(sent) + [roots - old(place).left]
    {
      ok := outcome.Ok?;
      if !outcome.FailBefore? {
        sent := sent + [roots - place.left];
        senders := senders + Submitter(State());
      }
      place := if ok then Sending(place.left - 1) else Failing;
    }

    method PersistActive(outcome: Outcome) returns (ok: bool)
      requires place.LastPersist? && staticRun.Some?
      modifies this`staticRun, this`storedRun, this`place
      ensures State() == DoAdvance(old(State()), outcome, NO_ANSWER) && ok == outcome.Ok?
      ensures place == (if ok then Idle else Failing)
      ensures staticRun == Some(old(staticRun).value.(status := Active)) && (ok ==> storedRun == staticRun)
      ensures old(storedRun).Some? ==> storedRun.Some?
    {
      PersistStaticRun(staticRun.value.(status := Active), outcome);
      ok := outcome.Ok?;
      place := if ok then Idle else Failing;
    }

    /** `_fail_workflow_dispatch`. */
    method FailWorkflowDispatch(outcome: Outcome, answer: Answer)
      requires place.Failing? && staticRun.Some?
      modifies this`staticRun, this`storedRun, this`capabilityLive, this`cleanupRetries, this`evidence,
               this`nextRequest, this`place
      ensures State() == DoAdvance(old(State()), outcome, answer)
      ensures place.Idle?
      ensures old(staticRun).value.status.Prepared? ==>
                && cleanupRetries == old(cleanupRetries) && nextRequest == old(nextRequest)
                && (answer.finishing.revoke.Ok? && answer.finishing.persist.Ok?
                    && !old(staticRun).value.artifacts.Revoked? ==>
                      GivenUp(staticRun, storedRun, capabilityLive))
      ensures (old(staticRun).value.status.Dispatching? || old(staticRun).value.status.Active?) && outcome.Ok? ==>
                && (!(answer.send.Ok? && answer.confirms) ==>
                      && IsWaiting(staticRun, storedRun, old(nextRequest)) && old(nextRequest) in cleanupRetries
                      && (!answer.send.FailBefore? ==> old(nextRequest) in evidence.requested))
                && (answer.send.Ok? && answer.confirms && !old(staticRun).value.artifacts.Revoked?
                    && answer.finishing.revoke.Ok? && answer.finishing.persist.Ok? ==>
                      GivenUp(staticRun, storedRun, capabilityLive))
    {
      var ok;
      FailedStartIs(State().(place := Idle), outcome, answer);
      hide FinishFailure, DoRequestCleanup, FinishRaises, CleanupRaises, GivenUp, IsWaiting;
      place := Idle;
      if staticRun.value.status.Prepared? {
        ok := FinishWorkflowDispatchFailure(answer.finishing);
      } else {
        ok := RequestWorkflowCleanup(outcome, answer);
      }
    }

    /** Everything up to the first root message; false leaves the start in the handler
        or, when the very first persist failed, over. */
    method PrepareRun(script: Script, ghost s0: Journal, ghost before: seq<Action>)
      returns (ok: bool, created: bool, ghost trace: seq<Action>)
      requires place.FirstPersist? && staticRun.Some? && Leads(s0, before, State())
      modifies this`staticRun, this`storedRun, this`place, this`capabilityLive
      ensures Leads(s0, trace, State())
      ensures created == script.first.Ok? && (created <==> !place.Idle?) && (created <==> staticRun.Some?)
      ensures !created ==> storedRun == if script.first.FailAfter? then old(staticRun) else old(storedRun)
      ensures created ==> storedRun.Some?
      ensures ok == (PreparesWell(script) && script.third.Ok?)
      ensures created && !PreparesWell(script) ==>
                && place.Failing? && staticRun.value.status == old(staticRun).value.status
                && (staticRun == old(staticRun) || staticRun == Some(Prepped(old(staticRun).value)))
      ensures PreparesWell(script) ==>
                && staticRun == Some(Prepped(old(staticRun).value).(status := Dispatching))
                && place == (if ok then Sending(roots) else Failing)
                && (ok ==> storedRun == staticRun) && (staticRun.value.owned ==> capabilityLive)
    {
      trace := before;
      ghost var s := State();
      hide State, Run, DoAdvance, Leads;
      ok := PersistPrepared(script.first);
      created := ok;
      trace := Follow(s0, trace, s, Advance(script.first, NO_ANSWER), State());
      if !ok { return; }
      s := State();
      ok := PrepareArtifacts(script.prepare);
      trace := Follow(s0, trace, s, Advance(script.prepare, NO_ANSWER), State());
      if !ok { return; }
      s := State();
      ok := PersistArtifactStatus(script.second);
      trace := Follow(s0, trace, s, Advance(script.second, NO_ANSWER), State());
      if !ok { return; }
      s := State();
      ok := RecordStartEvent(script.record);
      trace := Follow(s0, trace, s, Advance(script.record, NO_ANSWER), State());
      if !ok { return; }
      s := State();
      ok := PersistDispatching(script.third);
      trace := Follow(s0, trace, s, Advance(script.third, NO_ANSWER), State());
    }

    /** The loop over the root messages; `script.sends` tells how each one goes. */
    method SendRoots(rootTasks: nat, script: Script, ghost s0: Journal, ghost before: seq<Action>)
      returns (ok: bool, ghost trace: seq<Action>)
      requires place == Sending(rootTasks) && roots == rootTasks && staticRun.Some? && Leads(s0, before, State())
      requires |script.sends| >= rootTasks
      modifies this`sent, this`senders, this`place
      ensures Leads(s0, trace, State())
      ensures SentFrom(old(sent), sent) && |sent| == |old(sent)| + Delivered(script.sends[..rootTasks])
      ensures ok <==> forall i :: 0 <= i < rootTasks ==> script.sends[i].Ok?
      ensures if ok then place == Sending(0) && |sent| == |old(sent)| + rootTasks else place.Failing?
    {
      trace, ok := before, true;
      var i := 0;
      ghost var was, all := sent, script.sends[..rootTasks];
      ghost var s := State();
      hide Run, DoAdvance, Leads, State;
      while ok && i < rootTasks
        invariant 0 <= i <= rootTasks && Leads(s0, trace, State())
        invariant roots == rootTasks && SentFrom(was, sent)
        invariant forall j :: 0 <= j < i ==> script.sends[j].Ok?
        invariant !ok ==> i < rootTasks && !script.sends[i].Ok?
        invariant if ok then place == Sending(rootTasks - i) else place.Failing?
        invariant if ok then |sent| == |was| + i && Delivered(all) == i + Delivered(all[i..])
                  else |sent| == |was| + Delivered(all)
        decreases rootTasks - i, ok
      {
        assert all[i..][1..] == all[i + 1..];
        s := State();
        ok := SendRoot(script.sends[i]);
        trace := Follow(s0, trace, s, Advance(script.sends[i], NO_ANSWER), State());
        if ok { i := i + 1; }
      }
    }

    method EnterLastPersist()
      requires place == Sending(0) && staticRun.Some?
      modifies this`place
      ensures State() == DoAdvance(old(State()), Ok, NO_ANSWER) && place.LastPersist?
    {
      place := LastPersist;
    }

    /** `run_workflow` on a run id.  It starts exactly a run that is not stored, when every
        statement goes well; what a failing start leaves depends on the first statement that
        fails.  Whatever happens, the trace is one the theorems above cover. */
    method RunWorkflow(submission: Submission, rootTasks: nat, artifacts: bool, owned: bool, script: Script)
      returns (started: bool, ghost trace: seq<Action>)
      requires place.Idle? && !starting && |script.sends| >= rootTasks
      modifies this
      ensures Leads(old(State()), trace, State()) && place.Idle?
      ensures old(storedRun).Some? ==> State() == old(State())
      ensures started <==> old(storedRun).None? && PreparesWell(script) && DispatchesWell(script, rootTasks)
      ensures started ==>
                && SentFrom(old(sent), sent) && |sent| == |old(sent)| + rootTasks
                && storedRun == Some(Prepped(NewRecord(artifacts, owned)).(status := Active)) && staticRun == storedRun
                && (owned ==> capabilityLive) && cleanupRetries == old(cleanupRetries)
      ensures old(storedRun).None? && !script.first.Ok? ==>
                && staticRun == None && sent == old(sent) && cleanupRetries == old(cleanupRetries)
                && storedRun == (if script.first.FailAfter? then Some(NewRecord(artifacts, owned)) else None)
      ensures old(storedRun).None? && script.first.Ok? && !PreparesWell(script) ==>
                && sent == old(sent) && cleanupRetries == old(cleanupRetries)
                && (script.answer.finishing.revoke.Ok? && script.answer.finishing.persist.Ok? ==>
                      GivenUp(staticRun, storedRun, capabilityLive))
      ensures old(storedRun).None? && PreparesWell(script) && !DispatchesWell(script, rootTasks) ==>
                && SentFrom(old(sent), sent)
                && |sent| == |old(sent)| + (if script.third.Ok? then Delivered(script.sends[..rootTasks]) else 0)
                && (script.cleanup.Ok? && !(script.answer.send.Ok? && script.answer.confirms) ==>
                      && IsWaiting(staticRun, storedRun, old(nextRequest)) && old(nextRequest) in cleanupRetries
                      && (!script.answer.send.FailBefore? ==> old(nextRequest) in evidence.requested))
                && (script.cleanup.Ok? && script.answer.send.Ok? && script.answer.confirms
                    && script.answer.finishing.revoke.Ok? && script.answer.finishing.persist.Ok? ==>
                      GivenUp(staticRun, storedRun, capabilityLive))
    {
      trace, started := [], false;
      ghost var s0 := State();
      assert Leads(s0, [], s0);
      if storedRun.Some? { return; }
      ghost var s := State();
      CreateRun(submission, rootTasks, artifacts, owned);
      trace := Follow(s0, trace, s, Submit(submission, rootTasks, artifacts, owned), State());
      hide Run, State, DoAdvance, Leads, GivenUp, IsWaiting, Prepped, NewRecord, SentFrom, Delivered;
      NewIsPrepared(artifacts, owned);
      assert SentFrom(sent, sent) by { NoneSent(sent); }
      assert staticRun.value.status.Prepared?;
      var ok, created;
      ok, created, trace := PrepareRun(script, s0, trace);
      if ok { ok, trace := SendAndActivate(rootTasks, script, s0, trace); }
      started := ok;
      if created && !started {
        s := State();
        FailWorkflowDispatch(script.cleanup, script.answer);
        trace := Follow(s0, trace, s, Advance(script.cleanup, script.answer), State());
      }
    }

    /** The roots, then the active status. */
    method SendAndActivate(rootTasks: nat, script: Script, ghost s0: Journal, ghost before: seq<Action>)
      returns (ok: bool, ghost trace: seq<Action>)
      requires place == Sending(rootTasks) && roots == rootTasks && staticRun.Some? && Leads(s0, before, State())
      requires |script.sends| >= rootTasks && storedRun.Some?
      requires script.third.Ok?
      modifies this`sent, this`senders, this`place, this`staticRun, this`storedRun
      ensures Leads(s0, trace, State())
      ensures SentFrom(old(sent), sent) && |sent| == |old(sent)| + Delivered(script.sends[..rootTasks])
      ensures ok <==> DispatchesWell(script, rootTasks)
      ensures storedRun.Some? && staticRun.Some?
      ensures ok ==> place.Idle? && |sent| == |old(sent)| + rootTasks
                     && staticRun == storedRun == Some(old(staticRun).value.(status := Active))
      ensures !ok ==> place.Failing?
                      && (staticRun == old(staticRun) || staticRun == Some(old(staticRun).value.(status := Active)))
    {
      ghost var s := State();
      hide Run, State, DoAdvance, Leads;
      ok, trace := SendRoots(rootTasks, script, s0, before);
      if ok {
        s := State();
        EnterLastPersist();
        trace := Follow(s0, trace, s, Advance(Ok, NO_ANSWER), State());
        s := State();
        ok := PersistActive(script.last);
        trace := Follow(s0, trace, s, Advance(script.last, NO_ANSWER), State());
      }
    }
  }

  /** The record a start begins with. */
  function NewRecord(artifacts: bool, owned: bool): Dispatch {
    Dispatch(Prepared, if artifacts || owned then Pending else NoArtifacts, owned, None)
  }

  /** ... and has when its artifacts are there. */
  function Prepped(d: Dispatch): Dispatch {
    d.(artifacts := if d.artifacts.Pending? then Created else d.artifacts)
  }

  lemma NewIsPrepared(artifacts: bool, owned: bool)
    ensures NewRecord(artifacts, owned).status.Prepared? && Prepped(NewRecord(artifacts, owned)).owned == owned
    ensures NewRecord(artifacts, owned).owned == owned
    ensures !NewRecord(artifacts, owned).artifacts.Revoked? && !Prepped(NewRecord(artifacts, owned)).artifacts.Revoked?
  {
  }

  /** Every statement before the dispatching status goes well. */
  predicate PreparesWell(script: Script) {
    script.first.Ok? && script.prepare.Ok? && script.second.Ok? && script.record.Ok?
  }

  /** ... and every one from there on. */
  predicate DispatchesWell(script: Script, rootTasks: nat)
    requires |script.sends| >= rootTasks
  {
    script.third.Ok? && (forall i :: 0 <= i < rootTasks ==> script.sends[i].Ok?) && script.last.Ok?
  }

  /** The run ended, and is stored so, with no capability left. */
  predicate GivenUp(memory: Option<Dispatch>, disk: Option<Dispatch>, live: bool) {
    && disk.Some? && disk.value.status.Terminal? && memory == disk
    && (disk.value.owned ==> disk.value.artifacts.Revoked? && !live)
  }

  /** The run waits for its own cleanup request, and is stored so. */
  predicate IsWaiting(memory: Option<Dispatch>, disk: Option<Dispatch>, request: RequestId) {
    disk.Some? && disk.value.status.CleanupPending? && disk.value.request == Some(request) && memory == disk
  }

  /** What the exception handler leaves of a run in memory. */
  lemma FailedStartIs(s: Journal, outcome: Outcome, answer: Answer)
    requires s.place.Idle? && s.memory.Some?
    ensures s.memory.value.status.Prepared? ==>
              var t := FinishFailure(s, answer.finishing);
              && t.attempts == s.attempts && t.nextRequest == s.nextRequest
              && (answer.finishing.revoke.Ok? && answer.finishing.persist.Ok? && !s.memory.value.artifacts.Revoked? ==>
                    GivenUp(t.memory, t.disk, t.live))
    ensures (s.memory.value.status.Dispatching? || s.memory.value.status.Active?) && outcome.Ok? ==>
              var t := DoRequestCleanup(s, outcome, answer);
              && (!(answer.send.Ok? && answer.confirms) ==>
                    && IsWaiting(t.memory, t.disk, s.nextRequest) && s.nextRequest in t.attempts
                    && (!answer.send.FailBefore? ==> s.nextRequest in t.evidence.requested))
              && (answer.send.Ok? && answer.confirms && answer.finishing.revoke.Ok? && answer.finishing.persist.Ok?
                    && !s.memory.value.artifacts.Revoked? ==>
                    GivenUp(t.memory, t.disk, t.live))
  {
  }

  /** How many of the messages reach the scheduler: none after the first failure. */
  function Delivered(sends: seq<Outcome>): nat {
    if sends == [] || sends[0].FailBefore? then 0
    else if sends[0].FailAfter? then 1
    else 1 + Delivered(sends[1..])
  }

  /** The roots from the first on were sent, in order. */
  predicate SentFrom(was: seq<int>, sent: seq<int>) {
    |was| <= |sent| && sent[..|was|] == was && forall i :: |was| <= i < |sent| ==> sent[i] == i - |was|
  }

  lemma NoneSent(sent: seq<int>)
    ensures SentFrom(sent, sent)
  {
  }

  /** Handing a request over does not change whether the run awaits it. */
  lemma SendingChangesNothing(s: Journal, request: RequestId, finishing: Finishing)
    ensures var t := Heard(Handed(Counted(s, request), request), request);
            ConfirmRaises(t, request, finishing) == ConfirmRaises(s, request, finishing)
  {
  }

  /** These actions lead from `s` to `t`, in a process that serves. */
  ghost predicate Leads(s: Journal, trace: seq<Action>, t: Journal) {
    t == Run(s, trace) && !t.starting
  }

  /** One action more. */
  lemma Follow(s0: Journal, trace: seq<Action>, s: Journal, a: Action, t: Journal) returns (longer: seq<Action>)
    requires Leads(s0, trace, s) && (a.Advance? || a.Submit?) && t == Act(s, a)
    ensures longer == trace + [a] && Leads(s0, longer, t)
  {
    RunSnoc(s0, trace, a);
    longer := trace + [a];
    ServesOn(s, a);
    hide Act, Run;
  }

  lemma ServesOn(s: Journal, a: Action)
    requires !s.starting && (a.Advance? || a.Submit?)
    ensures !Act(s, a).starting
  {
    if a.Advance? {
      GiveUpFrames(s.(place := Idle), 0, a.answer.finishing);
      CleanupFrames(s.(place := Idle), a.outcome, a.answer);
    }
    hide FinishFailure, DoRequestCleanup;
  }
}
