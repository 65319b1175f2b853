/** Which scheduler messages count (maze/core/path/path.py: `_accept_task_attempt_event`,
    the attempt transaction around it, `_publish_task_file_manifest`).

    Messages may be lost, repeated and reordered.  Each one is taken inside a
    transaction: begin, accept, the handler's work, then commit or roll back. */
module TaskAttempts {
  import opened Options

  /** A JSON value where the code expects a string. */
  datatype Field = Absent | Text(text: string) | Junk(code: nat)

  /** A JSON value where the code expects an attempt number. */
  datatype Number = Missing | Int(value: int) | Bool(truth: bool) | Float(number: real) | NotANumber(code: nat)

  type Key = (Field, Field)              // run and task
  type RunState = nat                    // everything in the run object

  datatype Identity = Identity(attempt: int, dispatch: string, lease: string)

  datatype Kind = Start | Finish | Retry | Exception

  /** `file_manifest` in a message; an empty one counts as none. */
  datatype Manifest =
    | NoManifest
    | NotAnObject
    | Manifest(run: Field, task: Field, attempt: Number, dispatch: Field, lease: Field, published: Number)

  datatype Message = Message(
    kind: Kind,
    run: Field,
    task: Field,
    attempt: Number,
    dispatch: Field,
    lease: Field,
    preDispatch: bool,         // pre_dispatch is True
    capacity: bool,            // capacity_rejection is True and the error type says so
    manifest: Manifest)

  datatype Progress = Running | Retrying | Terminal

  /** An entry of `task_attempts`. */
  datatype Attempt = Attempt(identity: Identity, progress: Progress, eventType: Kind)

  /** History: what was accepted and committed for a task. */
  datatype Entry = Rejection | Accepted(identity: Identity, kind: Kind, capacity: bool)

  datatype World = World(
    attempts: map<Key, Attempt>,
    rejections: set<Key>,
    runs: map<Field, RunState>,
    log: map<Key, seq<Entry>>,              // history
    published: map<Key, seq<Identity>>)     // manifests published, history

  const EMPTY := World(map[], {}, map[], map[], map[])

  // ----- the filter ---------------------------------------------------------

  /** Python's `==` between numbers: booleans and floats compare by value. */
  function Numeric(n: Number): Option<real> {
    match n
    case Int(i) => Some(i as real)
    case Bool(b) => Some(if b then 1.0 else 0.0)
    case Float(r) => Some(r)
    case _ => None
  }

  predicate SameNumber(a: Number, b: Number) {
    if Numeric(a).Some? && Numeric(b).Some? then Numeric(a) == Numeric(b) else a == b
  }

  predicate IsName(f: Field) { f.Text? && f.text != "" }

  function KeyOf(m: Message): Key { (m.run, m.task) }

  /** `_task_attempt_identity`. */
  function IdentityOf(m: Message): Option<Identity> {
    if IsName(m.run) && IsName(m.task) && m.attempt.Int? && m.attempt.value >= 1
       && IsName(m.dispatch) && IsName(m.lease)
    then Some(Identity(m.attempt.value, m.dispatch.text, m.lease.text)) else None
  }

  /** `_validate_task_file_manifest`; false is its ArtifactError. */
  predicate ManifestFits(m: Message) {
    match m.manifest
    case NoManifest => true
    case NotAnObject => false
    case Manifest(run, task, attempt, dispatch, lease, published) =>
      && run == m.run && task == m.task && SameNumber(attempt, m.attempt)
      && dispatch == m.dispatch && lease == m.lease && SameNumber(published, Bool(false))
  }

  function NextProgress(kind: Kind): Progress {
    match kind
    case Start => Running
    case Retry => Retrying
    case _ => Terminal
  }

  /** Whether a parsed identity may follow the current attempt of its task. */
  predicate Follows(current: Attempt, identity: Identity, m: Message) {
    if identity.attempt < current.identity.attempt then false
    else if identity.attempt > current.identity.attempt then true
    else
      && identity == current.identity
      && ((current.progress.Running? && !m.kind.Start?)
          || (current.progress.Retrying? && m.kind.Exception? && m.capacity))
  }

  datatype Verdict = Refused | Invalid | AcceptRejection | AcceptAttempt(identity: Identity)

  predicate RejectionFits(w: World, m: Message) {
    && IsName(m.run) && IsName(m.task) && SameNumber(m.attempt, Int(0))
    && m.dispatch.Absent? && m.lease.Absent?
    && KeyOf(m) !in w.attempts && KeyOf(m) !in w.rejections
  }

  /** `_accept_task_attempt_event`; `Invalid` is the ArtifactError it may raise. */
  function Accept(w: World, m: Message): Verdict {
    if m.kind.Exception? && m.preDispatch then
      if RejectionFits(w, m) then AcceptRejection else Refused
    else if KeyOf(m) in w.rejections || IdentityOf(m).None? then Refused
    else
      var identity := IdentityOf(m).value;
      var known := KeyOf(m) in w.attempts;
      if known && w.attempts[KeyOf(m)].progress.Terminal? then Refused
      else if m.kind.Finish? && !ManifestFits(m) then Invalid
      else if known && !Follows(w.attempts[KeyOf(m)], identity, m) then Refused
      else AcceptAttempt(identity)
  }

  /** What acceptance writes. */
  function Enter(w: World, m: Message): World {
    match Accept(w, m)
    case AcceptRejection => w.(rejections := w.rejections + {KeyOf(m)})
    case AcceptAttempt(identity) =>
      w.(attempts := w.attempts[KeyOf(m) := Attempt(identity, NextProgress(m.kind), m.kind)])
    case _ => w
  }

  // ----- the transaction ----------------------------------------------------

  datatype Transaction = Transaction(
    key: Key, attempt: Option<Attempt>, hadRejection: bool, runId: Field, run: Option<RunState>)

  function Lookup<K, V>(m: map<K, V>, k: K): Option<V> {
    if k in m then Some(m[k]) else None
  }

  function Restore<K, V>(m: map<K, V>, k: K, v: Option<V>): map<K, V> {
    if v.Some? then m[k := v.value] else m - {k}
  }

  function Begin(w: World, m: Message): Transaction {
    Transaction(KeyOf(m), Lookup(w.attempts, KeyOf(m)), KeyOf(m) in w.rejections,
                m.run, Lookup(w.runs, m.run))
  }

  function RestoreMember<K>(s: set<K>, k: K, was: bool): set<K> {
    if was then s + {k} else s - {k}
  }

  /** A run that was not there at begin is left alone. */
  function RestoreRun(runs: map<Field, RunState>, runId: Field, run: Option<RunState>): map<Field, RunState> {
    if run.Some? then runs[runId := run.value] else runs
  }

  function Rollback(w: World, t: Transaction): World {
    w.(attempts := Restore(w.attempts, t.key, t.attempt),
       rejections := RestoreMember(w.rejections, t.key, t.hadRejection),
       runs := RestoreRun(w.runs, t.runId, t.run))
  }

  /** What the handler does after acceptance: the run states it passes through, whether
      the task's final output turned out invalid, and whether it reaches its commit. */
  datatype Handling = Handling(writes: seq<RunState>, outputError: bool, commits: bool)

  /** The handler's writes to the run object, one after another. */
  function Write(w: World, runId: Field, writes: seq<RunState>): World
    decreases |writes|
  {
    if writes == [] || runId !in w.runs then w
    else Write(w.(runs := w.runs[runId := writes[0]]), runId, writes[1..])
  }

  /** A finish whose final output is invalid is recorded as an exception. */
  function Rewrite(w: World, m: Message, h: Handling): World {
    if m.kind.Finish? && h.outputError && KeyOf(m) in w.attempts
    then w.(attempts := w.attempts[KeyOf(m) := w.attempts[KeyOf(m)].(eventType := Exception)])
    else w
  }

  /** `_publish_task_file_manifest` lets a manifest through. */
  predicate MayPublish(w: World, m: Message) {
    && IdentityOf(m).Some? && KeyOf(m) in w.attempts
    && w.attempts[KeyOf(m)].identity == IdentityOf(m).value
    && w.attempts[KeyOf(m)].progress.Terminal? && w.attempts[KeyOf(m)].eventType.Finish?
  }

  predicate Publishes(m: Message, h: Handling) {
    m.kind.Finish? && m.manifest.Manifest? && !h.outputError
  }

  function EntryOf(m: Message, v: Verdict): Entry
    requires v.AcceptRejection? || v.AcceptAttempt?
  {
    if v.AcceptRejection? then Rejection else Accepted(v.identity, m.kind, m.capacity)
  }

  function Log(w: World, key: Key): seq<Entry> {
    if key in w.log then w.log[key] else []
  }

  function Published(w: World, key: Key): seq<Identity> {
    if key in w.published then w.published[key] else []
  }

  predicate IsAccepted(w: World, m: Message) {
    Accept(w, m).AcceptRejection? || Accept(w, m).AcceptAttempt?
  }

  /** The world just before the handler commits. */
  function Handled(w: World, m: Message, h: Handling): World {
    Rewrite(Write(Enter(w, m), m.run, h.writes), m, h)
  }

  function PublishedAfter(w: World, m: Message, h: Handling): map<Key, seq<Identity>> {
    if Publishes(m, h) && IdentityOf(m).Some?
    then w.published[KeyOf(m) := Published(w, KeyOf(m)) + [IdentityOf(m).value]] else w.published
  }

  /** One message, from begin to commit or rollback. */
  function Process(w: World, m: Message, h: Handling): World {
    if Accept(w, m).Refused? then w
    else if Accept(w, m).Invalid? then Rollback(w, Begin(w, m))
    else if !h.commits then Rollback(Handled(w, m, h), Begin(w, m))
    else
      Handled(w, m, h).(log := w.log[KeyOf(m) := Log(w, KeyOf(m)) + [EntryOf(m, Accept(w, m))]],
                        published := PublishedAfter(w, m, h))
  }

  type Delivery = (Message, Handling)

  function Run(w: World, ds: seq<Delivery>): World
    decreases |ds|
  {
    if ds == [] then w else Run(Process(w, ds[0].0, ds[0].1), ds[1..])
  }

  // ----- rolled-back events leave no trace ----------------------------------

  lemma {:induction false} WriteTouchesOneRun(w: World, runId: Field, writes: seq<RunState>)
    ensures var v := Write(w, runId, writes);
            && v.attempts == w.attempts && v.rejections == w.rejections
            && v.log == w.log && v.published == w.published
            && v.runs.Keys == w.runs.Keys
            && forall r <- w.runs :: r != runId ==> v.runs[r] == w.runs[r]
    decreases |writes|
  {
    if writes != [] && runId in w.runs {
      WriteTouchesOneRun(w.(runs := w.runs[runId := writes[0]]), runId, writes[1..]);
    }
  }

  predicate Commits(w: World, d: Delivery) {
    IsAccepted(w, d.0) && d.1.commits
  }

  /** Two maps that agree everywhere but at one key. */
  ghost predicate AgreeExcept<K(!new), V>(a: map<K, V>, b: map<K, V>, k: K) {
    forall x: K :: x != k ==> (x in a <==> x in b) && (x in a && x in b ==> a[x] == b[x])
  }

  /** The filter and the handler write only the message's own task and run. */
  ghost predicate OwnWrites(w: World, v: World, m: Message) {
    && v.log == w.log && v.published == w.published
    && AgreeExcept(v.attempts, w.attempts, KeyOf(m))
    && (forall k: Key :: k != KeyOf(m) ==> (k in v.rejections <==> k in w.rejections))
    && (m.run in v.runs <==> m.run in w.runs) && AgreeExcept(v.runs, w.runs, m.run)
  }

  lemma EnterOwnWrites(w: World, m: Message)
    ensures OwnWrites(w, Enter(w, m), m)
  {
    hide Accept, KeyOf, NextProgress;
  }

  lemma WriteOwnWrites(w: World, v: World, m: Message, writes: seq<RunState>)
    requires OwnWrites(w, v, m)
    ensures OwnWrites(w, Write(v, m.run, writes), m)
  {
    WriteTouchesOneRun(v, m.run, writes);
    hide Write;
  }

  lemma RewriteOwnWrites(w: World, v: World, m: Message, h: Handling)
    requires OwnWrites(w, v, m)
    ensures OwnWrites(w, Rewrite(v, m, h), m)
  {
  }

  lemma HandledOwnWrites(w: World, m: Message, h: Handling)
    ensures OwnWrites(w, Handled(w, m, h), m)
  {
    hide OwnWrites, Enter, Write, Rewrite;
    EnterOwnWrites(w, m);
    WriteOwnWrites(w, Enter(w, m), m, h.writes);
    RewriteOwnWrites(w, Write(Enter(w, m), m.run, h.writes), m, h);
  }

  lemma RestoreUndoes<K(!new), V>(a: map<K, V>, b: map<K, V>, k: K)
    requires AgreeExcept(b, a, k)
    ensures Restore(b, k, Lookup(a, k)) == a
  {
  }

  lemma RollbackUndoes(w: World, v: World, m: Message)
    requires OwnWrites(w, v, m)
    ensures Rollback(v, Begin(w, m)) == w
  {
    RestoreUndoes(w.attempts, v.attempts, KeyOf(m));
    hide Restore, Lookup;
    var r := Rollback(v, Begin(w, m));
    assert r.rejections == w.rejections;
    assert r.runs == w.runs by { RunRestored(w, v, m); }
  }

  lemma RunRestored(w: World, v: World, m: Message)
    requires (m.run in v.runs <==> m.run in w.runs) && AgreeExcept(v.runs, w.runs, m.run)
    ensures RestoreRun(v.runs, m.run, Lookup(w.runs, m.run)) == w.runs
  {
  }

  /** A message that is refused, invalid or rolled back changes nothing. */
  lemma RollbackLeavesNoTrace(w: World, d: Delivery)
    requires !Commits(w, d)
    ensures Process(w, d.0, d.1) == w
  {
    hide Handled, OwnWrites, Rollback, Begin;
    HandledOwnWrites(w, d.0, d.1);
    RollbackUndoes(w, Handled(w, d.0, d.1), d.0);
    assert OwnWrites(w, w, d.0) by { Unwritten(w, d.0); }
    RollbackUndoes(w, w, d.0);
  }

  lemma Unwritten(w: World, m: Message)
    ensures OwnWrites(w, w, m)
  {
  }

  /** The deliveries that were accepted and committed along a run. */
  function CommittedOf(w: World, ds: seq<Delivery>): seq<Delivery>
    decreases |ds|
  {
    if ds == [] then []
    else
      var rest := CommittedOf(Process(w, ds[0].0, ds[0].1), ds[1..]);
      if Commits(w, ds[0]) then [ds[0]] + rest else rest
  }

  /** Processing only the committed messages gives the same attempts, rejections, run
      states and manifests, and commits every one of them again. */
  lemma {:induction false} OnlyCommittedMessagesMatter(w: World, ds: seq<Delivery>)
    ensures Run(w, CommittedOf(w, ds)) == Run(w, ds)
    ensures CommittedOf(w, CommittedOf(w, ds)) == CommittedOf(w, ds)
    decreases |ds|
  {
    if ds != [] {
      var v := Process(w, ds[0].0, ds[0].1);
      OnlyCommittedMessagesMatter(v, ds[1..]);
      if Commits(w, ds[0]) {
        var kept := CommittedOf(w, ds);
        assert kept[0] == ds[0] && kept[1..] == CommittedOf(v, ds[1..]);
      } else {
        RollbackLeavesNoTrace(w, ds[0]);
      }
    }
  }

  // ----- the protocol -------------------------------------------------------

  /** Which accepted event may come directly after which, for one task. */
  predicate Next(a: Entry, b: Entry) {
    && a.Accepted? && b.Accepted?
    && (a.kind.Start? || a.kind.Retry?)
    && (a.identity.attempt < b.identity.attempt ||
        (a.identity == b.identity
         && if a.kind.Start? then !b.kind.Start? else b.kind.Exception? && b.capacity))
  }

  ghost predicate Chain(log: seq<Entry>) {
    && (forall i :: 0 <= i < |log| - 1 ==> Next(log[i], log[i + 1]))
    && (|log| > 1 ==> forall e <- log :: e.Accepted?)
    && (forall i :: 0 <= i < |log| ==> log[i].Accepted? ==> log[i].identity.attempt >= 1)
  }

  /** A task's entry in the attempt map is the last event accepted for it. */
  ghost predicate TaskOk(w: World, key: Key) {
    && Chain(Log(w, key))
    && (key in w.rejections <==> Log(w, key) == [Rejection])
    && (key in w.attempts <==> Log(w, key) != [] && Log(w, key) != [Rejection])
    && (key in w.attempts ==>
          var last := Log(w, key)[|Log(w, key)| - 1]; var a := w.attempts[key];
          && last.Accepted? && a.identity == last.identity && a.progress == NextProgress(last.kind)
          && (a.eventType == last.kind || (last.kind.Finish? && a.eventType.Exception?)))
    && |Published(w, key)| <= 1
    && (|Published(w, key)| == 1 ==>
          key in w.attempts && w.attempts[key].eventType.Finish?
          && Published(w, key)[0] == w.attempts[key].identity)
  }

  ghost predicate Inv(w: World) {
    forall key: Key :: TaskOk(w, key)
  }

  lemma ChainGrows(log: seq<Entry>, e: Entry)
    requires Chain(log) && (log == [] || Next(log[|log| - 1], e))
    requires e.Accepted? ==> e.identity.attempt >= 1
    ensures Chain(log + [e])
  {
  }

  /** The message's own task after an accepted event was committed. */
  lemma CommittedOwnTask(w: World, v: World, m: Message, h: Handling)
    requires TaskOk(w, KeyOf(m)) && IsAccepted(w, m) && h.commits && v == Process(w, m, h)
    ensures TaskOk(v, KeyOf(m))
  {
    var key := KeyOf(m);
    var e := EntryOf(m, Accept(w, m));
    WriteTouchesOneRun(Enter(w, m), m.run, h.writes);
    hide Write;
    var log := Log(w, key);
    assert Log(v, key) == log + [e];
    ChainGrows(log, e);
    hide Chain;
    assert Published(v, key) == Published(w, key) || Publishes(m, h);
    assert key !in w.attempts ==> Published(w, key) == [];
    assert key in w.attempts && !w.attempts[key].progress.Terminal? ==> Published(w, key) == [];
    if e.Accepted? {
      assert (log + [e])[|log|] == e;
      assert log + [e] != [Rejection];
    }
  }

  lemma CommittedOtherTask(w: World, v: World, m: Message, h: Handling, key: Key)
    requires TaskOk(w, key) && IsAccepted(w, m) && h.commits && v == Process(w, m, h) && key != KeyOf(m)
    ensures TaskOk(v, key)
  {
    HandledOwnWrites(w, m, h);
    hide Handled, Chain;
    assert Log(v, key) == Log(w, key) && Published(v, key) == Published(w, key);
  }

  lemma ProcessKeeps(w: World, d: Delivery)
    requires Inv(w)
    ensures Inv(Process(w, d.0, d.1))
  {
    if !Commits(w, d) {
      RollbackLeavesNoTrace(w, d);
    } else {
      var v := Process(w, d.0, d.1);
      hide Process, Accept;
      forall key: Key ensures TaskOk(v, key) {
        assert TaskOk(w, key);
        hide TaskOk;
        if key == KeyOf(d.0) { CommittedOwnTask(w, v, d.0, d.1); }
        else { CommittedOtherTask(w, v, d.0, d.1, key); }
      }
    }
  }

  lemma {:induction false} RunKeeps(w: World, ds: seq<Delivery>)
    requires Inv(w)
    ensures Inv(Run(w, ds))
    decreases |ds|
  {
    if ds != [] {
      ProcessKeeps(w, ds[0]);
      RunKeeps(Process(w, ds[0].0, ds[0].1), ds[1..]);
    }
  }

  lemma Reachable(ds: seq<Delivery>, key: Key)
    ensures TaskOk(Run(EMPTY, ds), key)
  {
    assert forall k: Key :: Log(EMPTY, k) == [] && Published(EMPTY, k) == [];
    RunKeeps(EMPTY, ds);
  }

  /** Two accepted events of a task, the earlier and the later. */
  lemma {:induction false} ChainOrders(log: seq<Entry>, i: nat, j: nat)
    requires Chain(log) && i < j < |log|
    ensures log[i].Accepted? && log[j].Accepted?
    ensures log[i].kind.Start? || log[i].kind.Retry?
    ensures log[i].identity.attempt <= log[j].identity.attempt
    ensures log[i].identity.attempt == log[j].identity.attempt ==>
              log[i].identity == log[j].identity && log[i].kind != log[j].kind && !log[j].kind.Start?
    decreases j - i
  {
    assert Next(log[i], log[i + 1]);
    if i + 1 < j {
      ChainOrders(log, i + 1, j);
    }
  }

  /** For any deliveries, repeated and reordered: accepted attempt numbers of a task
      never decrease, one attempt number has one identity, nothing is accepted twice,
      and nothing follows a terminal event. */
  lemma AcceptedEventsAreOrdered(ds: seq<Delivery>, key: Key, i: nat, j: nat)
    requires i < j < |Log(Run(EMPTY, ds), key)|
    ensures var a, b := Log(Run(EMPTY, ds), key)[i], Log(Run(EMPTY, ds), key)[j];
            && a.Accepted? && b.Accepted? && !a.kind.Finish? && !a.kind.Exception?
            && a.identity.attempt <= b.identity.attempt
            && (a.identity.attempt == b.identity.attempt ==> a.identity == b.identity && a.kind != b.kind)
  {
    Reachable(ds, key);
    ChainOrders(Log(Run(EMPTY, ds), key), i, j);
  }

  /** The accepted events of one attempt. */
  function OfAttempt(log: seq<Entry>, n: int): seq<Entry> {
    if log == [] then []
    else (if log[0].Accepted? && log[0].identity.attempt == n then [log[0]] else []) + OfAttempt(log[1..], n)
  }

  /** start? ( finish | exception | retry ( capacity exception )? )? */
  predicate Grammar(es: seq<Entry>) {
    if es != [] && es[0].Accepted? && es[0].kind.Start? then Ending(es[1..]) else Ending(es)
  }

  predicate Ending(es: seq<Entry>) {
    || es == []
    || (|es| == 1 && es[0].Accepted? && !es[0].kind.Start?)
    || (|es| == 2 && es[0].Accepted? && es[0].kind.Retry?
        && es[1].Accepted? && es[1].kind.Exception? && es[1].capacity)
  }

  lemma {:induction false} NothingAbove(log: seq<Entry>, n: int)
    requires forall i :: 0 <= i < |log| ==> log[i].Accepted? ==> log[i].identity.attempt != n
    ensures OfAttempt(log, n) == []
  {
    if log != [] { NothingAbove(log[1..], n); }
  }

  lemma ChainTail(log: seq<Entry>)
    requires Chain(log) && log != []
    ensures Chain(log[1..])
  {
    var tail := log[1..];
    forall i | 0 <= i < |tail| - 1 ensures Next(tail[i], tail[i + 1]) {
      ChainAt(log, i + 1);
    }
  }

  lemma ChainAt(log: seq<Entry>, i: nat)
    requires Chain(log) && i + 1 < |log|
    ensures Next(log[i], log[i + 1])
  {
  }

  lemma TerminalIsLast(log: seq<Entry>, i: nat)
    requires Chain(log) && i < |log| && log[i].Accepted? && (log[i].kind.Finish? || log[i].kind.Exception?)
    ensures |log| == i + 1
  {
    if i + 1 < |log| { ChainAt(log, i); }
  }

  lemma {:induction false} ChainMatchesGrammar(log: seq<Entry>, n: int)
    requires Chain(log)
    ensures Grammar(OfAttempt(log, n))
    ensures log != [] && log[0].Accepted? && log[0].identity.attempt == n ==>
              OfAttempt(log, n) != [] && OfAttempt(log, n)[0] == log[0]
    decreases |log|
  {
    if |log| > 1 {
      ChainTail(log);
      ChainMatchesGrammar(log[1..], n);
      assert Next(log[0], log[1]);
      if log[0].identity.attempt == n && log[1].identity.attempt > n {
        forall i | 0 <= i < |log[1..]| ensures log[1..][i].Accepted? ==> log[1..][i].identity.attempt != n {
          ChainOrders(log, 0, i + 1);
          if i > 0 { ChainOrders(log, 1, i + 1); }
        }
        NothingAbove(log[1..], n);
      } else if log[0].identity.attempt == n && log[0].kind.Retry? {
        TerminalIsLast(log, 1);
        assert log[1..] == [log[1]] && OfAttempt([log[1]], n) == [log[1]];
      }
    } else if |log| == 1 {
      assert log[1..] == [];
    }
  }

  /** The accepted events of every attempt of every task match the protocol's grammar. */
  lemma AttemptsMatchGrammar(ds: seq<Delivery>, key: Key, n: int)
    ensures Grammar(OfAttempt(Log(Run(EMPTY, ds), key), n))
  {
    Reachable(ds, key);
    ChainMatchesGrammar(Log(Run(EMPTY, ds), key), n);
  }

  /** A rejection before dispatch is the only event its task ever has. */
  lemma RejectionIsAlone(ds: seq<Delivery>, key: Key)
    requires Rejection in Log(Run(EMPTY, ds), key) || key in Run(EMPTY, ds).rejections
    ensures Log(Run(EMPTY, ds), key) == [Rejection]
    ensures key !in Run(EMPTY, ds).attempts && Published(Run(EMPTY, ds), key) == []
  {
    Reachable(ds, key);
    var log := Log(Run(EMPTY, ds), key);
    if Rejection in log {
      assert log[0] == Rejection;
    }
  }

  /** At most one manifest per task is published, and it carries the identity of the
      finish that was accepted for the task. */
  lemma OneManifestPerTask(ds: seq<Delivery>, key: Key)
    ensures var w := Run(EMPTY, ds); var log := Log(w, key);
            && |Published(w, key)| <= 1
            && (|Published(w, key)| == 1 ==>
                  && log != [] && log[|log| - 1].Accepted? && log[|log| - 1].kind.Finish?
                  && log[|log| - 1].identity == Published(w, key)[0])
  {
    Reachable(ds, key);
  }

  /** The check inside `_publish_task_file_manifest` never refuses the message that was
      just accepted. */
  lemma AcceptedFinishMayPublish(w: World, m: Message)
    requires m.kind.Finish? && Accept(w, m).AcceptAttempt?
    ensures ManifestFits(m) && MayPublish(Enter(w, m), m)
  {
  }

  // ----- which messages are accepted ----------------------------------------

  /** The message names its task, its attempt from 1 on, its dispatch and its lease. */
  predicate Identifies(m: Message, id: Identity) {
    && m.run.Text? && |m.run.text| > 0 && m.task.Text? && |m.task.text| > 0
    && m.attempt == Int(id.attempt) && id.attempt >= 1
    && m.dispatch == Text(id.dispatch) && |id.dispatch| > 0
    && m.lease == Text(id.lease) && |id.lease| > 0
  }

  /** The ways Python writes a number that equals `n`. */
  predicate Equals(number: Number, n: int) {
    || number == Int(n) || number == Float(n as real)
    || (n == 0 && number == Bool(false)) || (n == 1 && number == Bool(true))
  }

  /** No manifest, or one for exactly this attempt that is not yet published. */
  predicate IsForAttempt(manifest: Manifest, m: Message, id: Identity) {
    match manifest
    case NoManifest => true
    case NotAnObject => false
    case Manifest(run, task, attempt, dispatch, lease, published) =>
      && run == m.run && task == m.task && Equals(attempt, id.attempt)
      && dispatch == Text(id.dispatch) && lease == Text(id.lease) && Equals(published, 0)
  }

  /** What the protocol allows after the events accepted so far. */
  predicate MayFollow(log: seq<Entry>, e: Entry) {
    log == [] || Next(log[|log| - 1], e)
  }

  ghost predicate Expected(log: seq<Entry>, m: Message) {
    if m.kind.Exception? && m.preDispatch then
      && log == [] && m.run.Text? && |m.run.text| > 0 && m.task.Text? && |m.task.text| > 0
      && Equals(m.attempt, 0) && m.dispatch == Absent && m.lease == Absent
    else
      exists id: Identity ::
        && Identifies(m, id) && MayFollow(log, Accepted(id, m.kind, m.capacity))
        && (m.kind.Finish? ==> IsForAttempt(m.manifest, m, id))
  }

  lemma ZeroIs(n: Number)
    ensures SameNumber(n, Int(0)) <==> Equals(n, 0)
    ensures SameNumber(n, Bool(false)) <==> Equals(n, 0)
  {
  }

  lemma SameAsInt(n: Number, i: int)
    ensures SameNumber(n, Int(i)) <==> Equals(n, i)
  {
  }

  lemma IdentifiesIs(m: Message)
    ensures IdentityOf(m).Some? ==> Identifies(m, IdentityOf(m).value)
    ensures forall id: Identity :: Identifies(m, id) ==> IdentityOf(m) == Some(id)
  {
  }

  lemma ManifestIs(m: Message, id: Identity)
    requires Identifies(m, id)
    ensures ManifestFits(m) <==> IsForAttempt(m.manifest, m, id)
  {
    if m.manifest.Manifest? {
      SameAsInt(m.manifest.attempt, id.attempt);
      ZeroIs(m.manifest.published);
    }
  }

  /** In a world the log explains, a message is accepted exactly when the log expects it. */
  lemma AcceptedIsExpected(w: World, m: Message)
    requires TaskOk(w, KeyOf(m))
    ensures IsAccepted(w, m) <==> Expected(Log(w, KeyOf(m)), m)
  {
    ZeroIs(m.attempt);
    IdentifiesIs(m);
    if IdentityOf(m).Some? { ManifestIs(m, IdentityOf(m).value); }
    hide Identifies, IsForAttempt, ManifestFits, SameNumber, Equals, IdentityOf, Published;
    if !(m.kind.Exception? && m.preDispatch) { AttemptIsExpected(w, m); }
  }

  lemma AttemptIsExpected(w: World, m: Message)
    requires TaskOk(w, KeyOf(m)) && !(m.kind.Exception? && m.preDispatch)
    requires IdentityOf(m).Some? ==> Identifies(m, IdentityOf(m).value)
    requires IdentityOf(m).Some? ==> (ManifestFits(m) <==> IsForAttempt(m.manifest, m, IdentityOf(m).value))
    requires forall id: Identity :: Identifies(m, id) ==> IdentityOf(m) == Some(id)
    ensures IsAccepted(w, m) <==> Expected(Log(w, KeyOf(m)), m)
  {
    hide Identifies, IsForAttempt, ManifestFits, IdentityOf, Published;
  }

  predicate IsOver(log: seq<Entry>) {
    log != [] && (log[|log| - 1].Rejection? || log[|log| - 1].kind.Finish? || log[|log| - 1].kind.Exception?)
  }

  /** The error about a manifest is raised exactly for a finish of a task that is not over
      whose manifest is not for the attempt. */
  lemma InvalidIff(w: World, m: Message)
    requires TaskOk(w, KeyOf(m))
    ensures Accept(w, m).Invalid? <==>
              m.kind.Finish? && !IsOver(Log(w, KeyOf(m)))
              && exists id: Identity :: Identifies(m, id) && !IsForAttempt(m.manifest, m, id)
  {
    IdentifiesIs(m);
    if IdentityOf(m).Some? { ManifestIs(m, IdentityOf(m).value); }
    hide Identifies, IsForAttempt, ManifestFits, IdentityOf, Published, Follows;
  }

  /** In every reachable world a message whose handler gets to its commit is accepted
      exactly when the protocol expects it, and then it is the task's next event; a
      manifest is published exactly for an accepted finish that brings one and whose
      output is valid. */
  lemma AcceptedIffExpected(ds: seq<Delivery>, m: Message, h: Handling)
    requires h.commits
    ensures var w := Run(EMPTY, ds); var v := Process(w, m, h); var log := Log(w, KeyOf(m));
            && (v != w <==> Expected(log, m))
            && (Expected(log, m) ==>
                  |Log(v, KeyOf(m))| == |log| + 1 && Log(v, KeyOf(m))[..|log|] == log
                  && var e := Log(v, KeyOf(m))[|log|];
                     if m.kind.Exception? && m.preDispatch then e == Rejection
                     else e.Accepted? && Identifies(m, e.identity) && e.kind == m.kind && e.capacity == m.capacity)
            && (|Published(v, KeyOf(m))| > |Published(w, KeyOf(m))| <==>
                  Expected(log, m) && m.kind.Finish? && m.manifest.Manifest? && !h.outputError)
  {
    var w := Run(EMPTY, ds);
    Reachable(ds, KeyOf(m));
    AcceptedIsExpected(w, m);
    IdentifiesIs(m);
    hide Expected, TaskOk, Identifies;
    if IsAccepted(w, m) {
      CommittedLogs(w, m, h);
    } else {
      RollbackLeavesNoTrace(w, (m, h));
    }
  }

  lemma CommittedLogs(w: World, m: Message, h: Handling)
    requires IsAccepted(w, m) && h.commits
    ensures var v := Process(w, m, h); var log := Log(w, KeyOf(m));
            && v != w && Log(v, KeyOf(m)) == log + [EntryOf(m, Accept(w, m))]
            && (Accept(w, m).AcceptAttempt? <==> !(m.kind.Exception? && m.preDispatch))
            && (Accept(w, m).AcceptAttempt? ==> IdentityOf(m) == Some(Accept(w, m).identity))
            && Published(v, KeyOf(m))
               == if m.kind.Finish? && m.manifest.Manifest? && !h.outputError
                  then Published(w, KeyOf(m)) + [Accept(w, m).identity] else Published(w, KeyOf(m))
  {
    WriteTouchesOneRun(Enter(w, m), m.run, h.writes);
    hide Write, IdentityOf, RejectionFits, Follows, ManifestFits;
    var v := Process(w, m, h);
    assert Log(v, KeyOf(m)) == Log(w, KeyOf(m)) + [EntryOf(m, Accept(w, m))];
    assert |Log(v, KeyOf(m))| != |Log(w, KeyOf(m))|;
  }

  /** The last write of a handler that commits stays; a run that is not there is not made. */
  lemma {:induction false} CommittedWriteStays(w: World, m: Message, h: Handling)
    requires IsAccepted(w, m) && h.commits
    ensures var v := Process(w, m, h);
            v.runs == if m.run in w.runs && h.writes != [] then w.runs[m.run := h.writes[|h.writes| - 1]] else w.runs
  {
    LastWriteStays(Enter(w, m), m.run, h.writes);
    hide Write, Accept;
  }

  lemma {:induction false} LastWriteStays(w: World, runId: Field, writes: seq<RunState>)
    ensures Write(w, runId, writes).runs
            == if runId in w.runs && writes != [] then w.runs[runId := writes[|writes| - 1]] else w.runs
    decreases |writes|
  {
    if writes != [] && runId in w.runs {
      LastWriteStays(w.(runs := w.runs[runId := writes[0]]), runId, writes[1..]);
    }
  }

  // ----- the monitor --------------------------------------------------------

  /** The fields of the run monitor that an attempt event touches. */
  class AttemptMonitor {
    var taskAttempts: map<Key, Attempt>
    var preDispatchRejections: set<Key>
    var runs: map<Field, RunState>
    ghost var log: map<Key, seq<Entry>>
    ghost var published: map<Key, seq<Identity>>

    ghost function State(): World
      reads this
    {
      World(taskAttempts, preDispatchRejections, runs, log, published)
    }

    constructor ()
      ensures State() == EMPTY
    {
      taskAttempts, preDispatchRejections, runs, log, published := map[], {}, map[], map[], map[];
    }

    method BeginTransaction(m: Message) returns (t: Transaction)
      ensures t == Begin(State(), m)
    {
      var key := (m.run, m.task);
      var attempt := if key in taskAttempts then Some(taskAttempts[key]) else None;
      var run := if m.run in runs then Some(runs[m.run]) else None;
      t := Transaction(key, attempt, key in preDispatchRejections, m.run, run);
    }

    method AcceptTaskAttemptEvent(m: Message) returns (v: Verdict)
      modifies this`taskAttempts, this`preDispatchRejections
      ensures v == Accept(old(State()), m)
      ensures State() == Enter(old(State()), m)
      ensures old(TaskOk(State(), KeyOf(m))) ==>
                (v.AcceptRejection? || v.AcceptAttempt? <==> Expected(Log(old(State()), KeyOf(m)), m))
    {
      if TaskOk(State(), KeyOf(m)) { AcceptedIsExpected(State(), m); }
      hide TaskOk, Expected;
      var key := (m.run, m.task);
      if m.kind.Exception? && m.preDispatch {
        if !IsName(m.run) || !IsName(m.task) || !SameNumber(m.attempt, Int(0))
           || !m.dispatch.Absent? || !m.lease.Absent?
           || key in taskAttempts || key in preDispatchRejections {
          return Refused;
        }
        preDispatchRejections := preDispatchRejections + {key};
        return AcceptRejection;
      }
      if key in preDispatchRejections { return Refused; }
      var parsed := IdentityOf(m);
      if parsed.None? { return Refused; }
      if key in taskAttempts && taskAttempts[key].progress.Terminal? { return Refused; }
      if m.kind.Finish? && !ManifestFits(m) { return Invalid; }
      if key in taskAttempts {
        var current := taskAttempts[key];
        if parsed.value.attempt < current.identity.attempt
           || (parsed.value.attempt == current.identity.attempt && parsed.value != current.identity) {
          return Refused;
        }
        if parsed.value == current.identity && (!current.progress.Running? || m.kind.Start?) {
          if !(current.progress.Retrying? && m.kind.Exception? && m.capacity) { return Refused; }
        }
      }
      taskAttempts := taskAttempts[key := Attempt(parsed.value, NextProgress(m.kind), m.kind)];
      return AcceptAttempt(parsed.value);
    }

    method RollbackTransaction(t: Transaction)
      modifies this`taskAttempts, this`preDispatchRejections, this`runs
      ensures State() == Rollback(old(State()), t)
    {
      if t.attempt.Some? {
        taskAttempts := taskAttempts[t.key := t.attempt.value];
      } else {
        taskAttempts := taskAttempts - {t.key};
      }
      if t.hadRejection {
        preDispatchRejections := preDispatchRejections + {t.key};
      } else {
        preDispatchRejections := preDispatchRejections - {t.key};
      }
      if t.run.Some? { runs := runs[t.runId := t.run.value]; }
    }

    method WriteRun(runId: Field, writes: seq<RunState>)
      modifies this`runs
      ensures State() == Write(old(State()), runId, writes)
    {
      var i := 0;
      while i < |writes|
        invariant 0 <= i <= |writes|
        invariant runId in runs <==> runId in old(runs)
        invariant Write(State(), runId, writes[i..]) == Write(old(State()), runId, writes)
      {
        if runId in runs { runs := runs[runId := writes[i]]; }
        i := i + 1;
      }
    }

    /** One message from the scheduler; an exception in the handler means no commit. */
    method ProcessMessage(m: Message, h: Handling) returns (committed: bool)
      requires Inv(State())
      modifies this
      ensures State() == Process(old(State()), m, h) && Inv(State())
      ensures committed <==> Commits(old(State()), (m, h))
      ensures !committed ==> State() == old(State())
    {
      ghost var w := State();
      ProcessKeeps(w, (m, h));
      if !Commits(w, (m, h)) { RollbackLeavesNoTrace(w, (m, h)); }
      hide Inv, Accept, Rollback, Begin;
      var transaction := BeginTransaction(m);
      var verdict := AcceptTaskAttemptEvent(m);
      if verdict.Refused? { return false; }
      if verdict.Invalid? {
        RollbackTransaction(transaction);
        return false;
      }
      WriteRun(m.run, h.writes);
      RecordOutputError(m, h);
      if !h.commits {
        RollbackTransaction(transaction);
        return false;
      }
      log := log[KeyOf(m) := Log(w, KeyOf(m)) + [EntryOf(m, Accept(w, m))]];
      published := PublishedAfter(w, m, h);
      return true;
    }

    method RecordOutputError(m: Message, h: Handling)
      modifies this`taskAttempts
      ensures State() == Rewrite(old(State()), m, h)
    {
      var key := (m.run, m.task);
      if m.kind.Finish? && h.outputError && key in taskAttempts {
        taskAttempts := taskAttempts[key := taskAttempts[key].(eventType := Exception)];
      }
    }
  }
}
