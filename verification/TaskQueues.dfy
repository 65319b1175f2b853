/** The three resource queues (maze/core/scheduler/queues.py:
    `HeterogeneousTaskQueues`).

    A task is a handle; `labels` are the attributes the queues set on it.  The strategy's
    priority keys may change from one refresh to the next, so every operation that
    refreshes is given the keys of that moment. */
module TaskQueues {
  import opened Options

  type Task = nat
  type Key = seq<real>      // a priority tuple

  datatype Name = Gpu | Cpu | Io

  datatype Queued = Queued(key: Key, sequence: nat, task: Task)

  datatype Label = Label(queue: Name, sequence: nat, entered: real)

  /** The keys of a moment: what `priority_key` answers for a task and its number. */
  type Priority = (Task, nat) -> Key

  datatype Queues = Queues(
    gpu: seq<Queued>,
    cpu: seq<Queued>,
    io: seq<Queued>,
    next: nat,                     // the sequence counter
    labels: map<Task, Label>,
    puts: seq<Task>,               // history: the task that got each number
    out: seq<Queued>)              // history: items taken and not restored

  datatype Action =
    | Put(task: Task, name: Name, now: real, priority: Priority)
    | Peek(name: Name, priority: Priority)
    | Take(name: Name, wanted: Option<Task>)
    | Restore(item: Queued, to: Option<Name>)
    | Snapshot(priority: Priority)

  const EMPTY := Queues([], [], [], 0, map[], [], [])

  /** Python's white space. */
  predicate IsSpace(c: char) {
    var n := c as int;
    || 9 <= n <= 13 || 28 <= n <= 32 || n in {0x85, 0xa0, 0x1680, 0x2028, 0x2029, 0x202f, 0x205f, 0x3000}
    || 0x2000 <= n <= 0x200a
  }

  function Strip(s: string): string {
    if s != [] && IsSpace(s[0]) then Strip(s[1..])
    else if s != [] && IsSpace(s[|s| - 1]) then Strip(s[..|s| - 1])
    else s
  }

  function Lower(s: string): string {
    seq(|s|, i requires 0 <= i < |s| => if 'A' <= s[i] <= 'Z' then s[i] - 'A' + 'a' else s[i])
  }

  /** `_normalize_queue_name`: unknown names are cpu. */
  function Normalize(name: string): Name {
    var stripped := Lower(Strip(name));
    if stripped == "gpu" then Gpu else if stripped == "io" then Io else Cpu
  }

  /** An empty name is none. */
  function Named(name: string): Option<Name> {
    if name == "" then None else Some(Normalize(name))
  }

  function Queue(s: Queues, name: Name): seq<Queued> {
    match name
    case Gpu => s.gpu
    case Cpu => s.cpu
    case Io => s.io
  }

  function SetQueue(s: Queues, name: Name, q: seq<Queued>): Queues {
    match name
    case Gpu => s.(gpu := q)
    case Cpu => s.(cpu := q)
    case Io => s.(io := q)
  }

  // ----- keys and sorting ---------------------------------------------------

  /** Python's order on tuples. */
  predicate Less(a: Key, b: Key) {
    if b == [] then false
    else if a == [] then true
    else a[0] < b[0] || (a[0] == b[0] && Less(a[1..], b[1..]))
  }

  predicate AtMost(a: Key, b: Key) {
    !Less(b, a)
  }

  /** The first difference decides; a tuple comes before the longer ones that begin with it. */
  predicate DecidesAt(a: Key, b: Key, i: nat) {
    && i <= |a| && i < |b| && (forall j :: 0 <= j < i ==> a[j] == b[j])
    && (i == |a| || a[i] < b[i])
  }

  lemma {:induction false} LessIs(a: Key, b: Key)
    ensures Less(a, b) <==> exists i :: DecidesAt(a, b, i)
  {
    if a == [] || b == [] {
      if b != [] { assert DecidesAt(a, b, 0); }
    } else if a[0] == b[0] {
      LessIs(a[1..], b[1..]);
      if i: nat :| DecidesAt(a[1..], b[1..], i) {
        assert forall j :: 0 <= j < i + 1 ==> a[j] == b[j] by {
          forall j | 0 <= j < i + 1 ensures a[j] == b[j] { if j > 0 { assert a[1..][j - 1] == b[1..][j - 1]; } }
        }
        assert DecidesAt(a, b, i + 1);
      }
      if i: nat :| DecidesAt(a, b, i) {
        assert i > 0;
        assert DecidesAt(a[1..], b[1..], i - 1);
      }
    } else if a[0] < b[0] {
      assert DecidesAt(a, b, 0);
    }
  }

  lemma {:induction false} LessIsAsymmetric(a: Key, b: Key)
    requires Less(a, b)
    ensures !Less(b, a)
  {
    if a != [] && b != [] && a[0] == b[0] { LessIsAsymmetric(a[1..], b[1..]); }
  }

  lemma {:induction false} AtMostIsTransitive(a: Key, b: Key, c: Key)
    requires AtMost(a, b) && AtMost(b, c)
    ensures AtMost(a, c)
  {
    if a != [] && b != [] && c != [] && a[0] == b[0] == c[0] {
      AtMostIsTransitive(a[1..], b[1..], c[1..]);
    }
  }

  /** An earlier item goes before later ones with an equal key. */
  function Insert(x: Queued, q: seq<Queued>): (r: seq<Queued>)
    ensures multiset(r) == multiset(q) + multiset{x} && |r| == |q| + 1
  {
    if q == [] then [x]
    else if AtMost(x.key, q[0].key) then [x] + q
    else
      assert q == [q[0]] + q[1..];
      [q[0]] + Insert(x, q[1..])
  }

  /** A stable sort by key. */
  function Sort(q: seq<Queued>): (r: seq<Queued>)
    ensures multiset(r) == multiset(q) && |r| == |q|
  {
    if q == [] then []
    else
      assert q == [q[0]] + q[1..];
      Insert(q[0], Sort(q[1..]))
  }

  predicate Leads(key: Key, q: seq<Queued>) {
    forall x <- q :: AtMost(key, x.key)
  }

  predicate Sorted(q: seq<Queued>) {
    q == [] || (Leads(q[0].key, q[1..]) && Sorted(q[1..]))
  }

  lemma LeadsInsert(key: Key, x: Queued, q: seq<Queued>)
    requires Leads(key, q) && AtMost(key, x.key)
    ensures Leads(key, Insert(x, q))
  {
    hide Insert;
    forall e <- Insert(x, q) ensures AtMost(key, e.key) {
      assert e in multiset(Insert(x, q));
      assert e == x || e in q;
    }
  }

  lemma LeadsTransitive(a: Key, b: Key, q: seq<Queued>)
    requires AtMost(a, b) && Leads(b, q)
    ensures Leads(a, q)
  {
    forall e <- q ensures AtMost(a, e.key) { AtMostIsTransitive(a, b, e.key); }
  }

  lemma {:induction false} InsertSorts(x: Queued, q: seq<Queued>)
    requires Sorted(q)
    ensures Sorted(Insert(x, q))
  {
    if q == [] {
      assert [x][1..] == [];
    } else if AtMost(x.key, q[0].key) {
      LeadsTransitive(x.key, q[0].key, q[1..]);
      assert ([x] + q)[1..] == q && q == [q[0]] + q[1..];
    } else {
      InsertSorts(x, q[1..]);
      LessIsAsymmetric(q[0].key, x.key);
      LeadsInsert(q[0].key, x, q[1..]);
      assert ([q[0]] + Insert(x, q[1..]))[1..] == Insert(x, q[1..]);
    }
  }

  lemma {:induction false} SortSorts(q: seq<Queued>)
    ensures Sorted(Sort(q))
  {
    if q != [] {
      SortSorts(q[1..]);
      InsertSorts(q[0], Sort(q[1..]));
    }
  }

  /** The items with one key, in their order. */
  function WithKey(q: seq<Queued>, key: Key): seq<Queued> {
    if q == [] then []
    else if q[0].key == key then [q[0]] + WithKey(q[1..], key)
    else WithKey(q[1..], key)
  }

  lemma WithKeyCons(x: Queued, q: seq<Queued>, key: Key)
    ensures WithKey([x] + q, key) == if x.key == key then [x] + WithKey(q, key) else WithKey(q, key)
  {
    assert ([x] + q)[1..] == q;
  }

  lemma GreaterDiffers(a: Key, b: Key)
    requires !AtMost(a, b)
    ensures a != b
  {
    LessIsAsymmetric(b, a);
  }

  lemma {:induction false} InsertIsStable(x: Queued, q: seq<Queued>, key: Key)
    ensures WithKey(Insert(x, q), key) == if x.key == key then [x] + WithKey(q, key) else WithKey(q, key)
  {
    hide AtMost;
    if q == [] {
      WithKeyCons(x, [], key);
    } else if AtMost(x.key, q[0].key) {
      WithKeyCons(x, q, key);
    } else {
      InsertIsStable(x, q[1..], key);
      GreaterDiffers(x.key, q[0].key);
      WithKeyCons(q[0], q[1..], key);
      WithKeyCons(q[0], Insert(x, q[1..]), key);
      assert q == [q[0]] + q[1..];
      hide WithKey;
    }
  }

  /** Items with equal keys keep their order. */
  lemma {:induction false} SortIsStable(q: seq<Queued>, key: Key)
    ensures WithKey(Sort(q), key) == WithKey(q, key)
  {
    if q != [] {
      SortIsStable(q[1..], key);
      InsertIsStable(q[0], Sort(q[1..]), key);
    }
  }

  lemma {:induction false} SortedAt(q: seq<Queued>, i: nat, j: nat)
    requires Sorted(q) && i < j < |q|
    ensures AtMost(q[i].key, q[j].key)
  {
    if i == 0 {
      assert q[j] == q[1..][j - 1];
    } else {
      SortedAt(q[1..], i - 1, j - 1);
    }
  }

  // ----- the operations -----------------------------------------------------

  function Rekey(q: seq<Queued>, priority: Priority): (r: seq<Queued>)
    ensures |r| == |q|
  {
    seq(|q|, i requires 0 <= i < |q| => q[i].(key := priority(q[i].task, q[i].sequence)))
  }

  /** `_refresh_queue`. */
  function Refreshed(q: seq<Queued>, priority: Priority): seq<Queued> {
    Sort(Rekey(q, priority))
  }

  function Labelled(labels: map<Task, Label>, task: Task, name: Name): map<Task, Label> {
    if task in labels then labels[task := labels[task].(queue := name)]
    else labels[task := Label(name, 0, 0.0)]
  }

  function Relabel(labels: map<Task, Label>, q: seq<Queued>, name: Name): map<Task, Label>
    decreases |q|
  {
    if q == [] then labels else Relabel(Labelled(labels, q[0].task, name), q[1..], name)
  }

  /** The first item that holds the task. */
  function IndexOf(q: seq<Queued>, task: Task): (i: nat)
    ensures i <= |q| && (i < |q| ==> q[i].task == task)
    ensures forall j :: 0 <= j < i ==> q[j].task != task
  {
    if q == [] || q[0].task == task then 0 else 1 + IndexOf(q[1..], task)
  }

  function DropAt<T>(q: seq<T>, i: nat): seq<T>
    requires i < |q|
  {
    q[..i] + q[i + 1..]
  }

  function DoPut(s: Queues, task: Task, name: Name, now: real, priority: Priority): Queues {
    SetQueue(s, name, Queue(s, name) + [Queued(priority(task, s.next), s.next, task)])
      .(next := s.next + 1, labels := s.labels[task := Label(name, s.next, now)], puts := s.puts + [task])
  }

  /** Where `take` finds its item: the head when no task is named. */
  function Place(q: seq<Queued>, wanted: Option<Task>): nat {
    if wanted.None? then 0 else IndexOf(q, wanted.value)
  }

  /** An empty queue or an absent task is an error and changes nothing. */
  function DoTake(s: Queues, name: Name, wanted: Option<Task>): Queues {
    var q := Queue(s, name);
    var i := Place(q, wanted);
    if i >= |q| then s else SetQueue(s, name, DropAt(q, i)).(out := s.out + [q[i]])
  }

  function Target(s: Queues, task: Task, to: Option<Name>): Name {
    if to.Some? then to.value else if task in s.labels then s.labels[task].queue else Cpu
  }

  function Position(q: seq<Queued>, x: Queued): (i: nat)
    requires x in q
    ensures i < |q| && q[i] == x
  {
    if q[0] == x then 0 else 1 + Position(q[1..], x)
  }

  /** One item fewer is out, if this one was. */
  function Back(out: seq<Queued>, item: Queued): seq<Queued> {
    if item in out then DropAt(out, Position(out, item)) else out
  }

  /** Whatever is handed back is queued, out or not. */
  function DoRestore(s: Queues, item: Queued, to: Option<Name>): Queues {
    var name := Target(s, item.task, to);
    SetQueue(s, name, Queue(s, name) + [item])
      .(out := Back(s.out, item), labels := Labelled(s.labels, item.task, name))
  }

  function DoSnapshot(s: Queues, priority: Priority): Queues {
    s.(gpu := Refreshed(s.gpu, priority), cpu := Refreshed(s.cpu, priority), io := Refreshed(s.io, priority),
       labels := Relabel(Relabel(Relabel(s.labels, Refreshed(s.gpu, priority), Gpu),
                                 Refreshed(s.cpu, priority), Cpu),
                         Refreshed(s.io, priority), Io))
  }

  function Step(s: Queues, a: Action): Queues {
    match a
    case Put(task, name, now, priority) => DoPut(s, task, name, now, priority)
    case Peek(name, priority) => SetQueue(s, name, Refreshed(Queue(s, name), priority))
    case Take(name, wanted) => DoTake(s, name, wanted)
    case Restore(item, to) => DoRestore(s, item, to)
    case Snapshot(priority) => DoSnapshot(s, priority)
  }

  function Run(s: Queues, actions: seq<Action>): Queues
    decreases |actions|
  {
    if actions == [] then s else Run(Step(s, actions[0]), actions[1..])
  }

  // ----- conservation -------------------------------------------------------

  /** The tasks of a queue with their numbers, whatever their keys. */
  function Bares(q: seq<Queued>): multiset<(nat, Task)> {
    if q == [] then multiset{} else multiset{(q[0].sequence, q[0].task)} + Bares(q[1..])
  }

  function Numbered(puts: seq<Task>): multiset<(nat, Task)> {
    if puts == [] then multiset{}
    else Numbered(puts[..|puts| - 1]) + multiset{(|puts| - 1, puts[|puts| - 1])}
  }

  function Contents(s: Queues): multiset<(nat, Task)> {
    Bares(s.gpu) + Bares(s.cpu) + Bares(s.io)
  }

  ghost predicate Inv(s: Queues) {
    Contents(s) + Bares(s.out) == Numbered(s.puts) && s.next == |s.puts|
  }

  lemma {:induction false} BaresConcat(a: seq<Queued>, b: seq<Queued>)
    ensures Bares(a + b) == Bares(a) + Bares(b)
  {
    if a == [] {
      assert a + b == b;
    } else {
      assert (a + b)[1..] == a[1..] + b;
      BaresConcat(a[1..], b);
    }
  }

  lemma BaresAppend(q: seq<Queued>, x: Queued)
    ensures Bares(q + [x]) == Bares(q) + multiset{(x.sequence, x.task)}
  {
    BaresConcat(q, [x]);
  }

  lemma BaresCons(x: Queued, q: seq<Queued>)
    ensures Bares([x] + q) == multiset{(x.sequence, x.task)} + Bares(q)
  {
    assert ([x] + q)[1..] == q;
  }

  lemma {:induction false} BaresDrop(q: seq<Queued>, i: nat)
    requires i < |q|
    ensures Bares(q) == Bares(DropAt(q, i)) + multiset{(q[i].sequence, q[i].task)}
  {
    hide Bares;
    assert q == [q[0]] + q[1..];
    BaresCons(q[0], q[1..]);
    if i == 0 {
      assert DropAt(q, 0) == q[1..];
    } else {
      var rest := DropAt(q[1..], i - 1);
      assert DropAt(q, i) == [q[0]] + rest;
      hide DropAt;
      BaresDrop(q[1..], i - 1);
      BaresCons(q[0], rest);
    }
  }

  lemma {:induction false} BaresRekey(q: seq<Queued>, priority: Priority)
    ensures Bares(Rekey(q, priority)) == Bares(q)
  {
    if q != [] {
      assert Rekey(q, priority)[1..] == Rekey(q[1..], priority);
      BaresRekey(q[1..], priority);
    }
  }

  lemma {:induction false} BaresInsert(x: Queued, q: seq<Queued>)
    ensures Bares(Insert(x, q)) == Bares(q) + multiset{(x.sequence, x.task)}
  {
    if q != [] {
      if AtMost(x.key, q[0].key) {
        assert ([x] + q)[1..] == q;
      } else {
        BaresInsert(x, q[1..]);
        assert ([q[0]] + Insert(x, q[1..]))[1..] == Insert(x, q[1..]);
      }
    }
  }

  lemma {:induction false} BaresSort(q: seq<Queued>)
    ensures Bares(Sort(q)) == Bares(q)
  {
    if q != [] {
      BaresSort(q[1..]);
      BaresInsert(q[0], Sort(q[1..]));
    }
  }

  lemma BaresRefreshed(q: seq<Queued>, priority: Priority)
    ensures Bares(Refreshed(q, priority)) == Bares(q)
  {
    BaresRekey(q, priority);
    BaresSort(Rekey(q, priority));
  }

  /** Replacing one queue moves the contents by the difference. */
  lemma ContentsSet(s: Queues, name: Name, q: seq<Queued>, more: multiset<(nat, Task)>)
    requires Bares(q) == Bares(Queue(s, name)) + more
    ensures Contents(SetQueue(s, name, q)) == Contents(s) + more
  {
    hide Bares;
  }

  lemma ContentsUnset(s: Queues, name: Name, q: seq<Queued>, fewer: multiset<(nat, Task)>)
    requires Bares(q) + fewer == Bares(Queue(s, name))
    ensures Contents(SetQueue(s, name, q)) + fewer == Contents(s)
  {
    hide Bares;
  }

  lemma PutIs(s: Queues, task: Task, name: Name, now: real, priority: Priority)
    ensures var g := DoPut(s, task, name, now, priority);
            && g.out == s.out && g.puts == s.puts + [task] && g.next == s.next + 1
            && Contents(g)
               == Contents(SetQueue(s, name, Queue(s, name) + [Queued(priority(task, s.next), s.next, task)]))
  {
    hide Bares;
  }

  lemma PutKeeps(s: Queues, task: Task, name: Name, now: real, priority: Priority)
    requires Inv(s)
    ensures Inv(DoPut(s, task, name, now, priority))
  {
    var x := Queued(priority(task, s.next), s.next, task);
    hide Bares, SetQueue, Contents;
    PutIs(s, task, name, now, priority);
    BaresAppend(Queue(s, name), x);
    ContentsSet(s, name, Queue(s, name) + [x], multiset{(s.next, task)});
    assert (s.puts + [task])[..|s.puts|] == s.puts;
    hide DoPut;
  }

  lemma TakeIs(s: Queues, name: Name, wanted: Option<Task>)
    requires Place(Queue(s, name), wanted) < |Queue(s, name)|
    ensures var g := DoTake(s, name, wanted); var q := Queue(s, name); var i := Place(q, wanted);
            && g.out == s.out + [q[i]] && g.puts == s.puts && g.next == s.next
            && Contents(g) == Contents(SetQueue(s, name, DropAt(q, i)))
  {
    hide Bares, DropAt, Place;
  }

  lemma TakeKeeps(s: Queues, name: Name, wanted: Option<Task>)
    requires Inv(s)
    ensures Inv(DoTake(s, name, wanted))
  {
    var q := Queue(s, name);
    var i := Place(q, wanted);
    if i < |q| {
      var one := multiset{(q[i].sequence, q[i].task)};
      hide Bares, DropAt, SetQueue, Contents, Place;
      TakeIs(s, name, wanted);
      BaresDrop(q, i);
      BaresAppend(s.out, q[i]);
      ContentsUnset(s, name, DropAt(q, i), one);
      hide DoTake;
      assert Contents(SetQueue(s, name, DropAt(q, i))) + (Bares(s.out) + one)
             == Contents(SetQueue(s, name, DropAt(q, i))) + one + Bares(s.out);
    }
  }

  lemma RestoreIs(s: Queues, item: Queued, to: Option<Name>)
    ensures var g := DoRestore(s, item, to); var name := Target(s, item.task, to);
            && g.out == Back(s.out, item) && g.puts == s.puts && g.next == s.next
            && Contents(g) == Contents(SetQueue(s, name, Queue(s, name) + [item]))
  {
    hide Bares, Back, Target, Labelled;
  }

  lemma BaresBack(out: seq<Queued>, item: Queued)
    ensures Bares(Back(out, item)) + (if item in out then multiset{(item.sequence, item.task)} else multiset{})
            == Bares(out)
  {
    if item in out { BaresDrop(out, Position(out, item)); }
    hide Bares, DropAt;
  }

  /** Restoring an item that is not out adds it a second time. */
  lemma RestoreKeepsIff(s: Queues, item: Queued, to: Option<Name>)
    requires Inv(s)
    ensures Inv(DoRestore(s, item, to)) <==> item in s.out
  {
    var one := multiset{(item.sequence, item.task)};
    var name := Target(s, item.task, to);
    hide Bares, SetQueue, Contents, Target, Back;
    RestoreIs(s, item, to);
    BaresBack(s.out, item);
    BaresAppend(Queue(s, name), item);
    ContentsSet(s, name, Queue(s, name) + [item], one);
    hide DoRestore;
    var back := Bares(Back(s.out, item));
    assert Contents(DoRestore(s, item, to)) == Contents(s) + one;
    if item in s.out {
      assert Contents(s) + one + back == Contents(s) + (back + one);
    } else {
      assert back + multiset{} == back;
      assert (Contents(s) + one + back)[(item.sequence, item.task)]
             == (Contents(s) + back)[(item.sequence, item.task)] + 1;
    }
  }

  lemma PeekKeeps(s: Queues, name: Name, priority: Priority)
    requires Inv(s)
    ensures Inv(SetQueue(s, name, Refreshed(Queue(s, name), priority)))
  {
    BaresRefreshed(Queue(s, name), priority);
    hide Bares, Refreshed;
  }

  lemma SnapshotKeeps(s: Queues, priority: Priority)
    requires Inv(s)
    ensures Inv(DoSnapshot(s, priority))
  {
    BaresRefreshed(s.gpu, priority);
    BaresRefreshed(s.cpu, priority);
    BaresRefreshed(s.io, priority);
    hide Bares, Refreshed, Relabel;
  }

  /** An item is handed back that is not out. */
  predicate Foreign(s: Queues, a: Action) {
    a.Restore? && a.item !in s.out
  }

  lemma StepKeepsIff(s: Queues, a: Action)
    requires Inv(s)
    ensures Inv(Step(s, a)) <==> !Foreign(s, a)
  {
    hide Inv, DoPut, DoTake, DoRestore, DoSnapshot, Refreshed, SetQueue;
    match a
    case Put(task, name, now, priority) => PutKeeps(s, task, name, now, priority);
    case Peek(name, priority) => PeekKeeps(s, name, priority);
    case Take(name, wanted) => TakeKeeps(s, name, wanted);
    case Restore(item, to) => RestoreKeepsIff(s, item, to);
    case Snapshot(priority) => SnapshotKeeps(s, priority);
  }

  ghost predicate AlwaysConserved(s: Queues, actions: seq<Action>)
    decreases |actions|
  {
    Inv(s) && (actions == [] || AlwaysConserved(Step(s, actions[0]), actions[1..]))
  }

  predicate NeverForeign(s: Queues, actions: seq<Action>)
    decreases |actions|
  {
    actions == [] || (!Foreign(s, actions[0]) && NeverForeign(Step(s, actions[0]), actions[1..]))
  }

  lemma {:induction false} ConservedIff(s: Queues, actions: seq<Action>)
    requires Inv(s)
    ensures AlwaysConserved(s, actions) <==> NeverForeign(s, actions)
    ensures NeverForeign(s, actions) ==> Inv(Run(s, actions))
    decreases |actions|
  {
    if actions != [] {
      StepKeepsIff(s, actions[0]);
      hide Inv, Step, Foreign;
      if !Foreign(s, actions[0]) { ConservedIff(Step(s, actions[0]), actions[1..]); }
    }
  }

  /** Throughout a run the queues and the items out hold exactly what was put, each number
      once, exactly when no item is restored that is not out. */
  lemma {:induction false} TasksAreConservedIff(actions: seq<Action>)
    ensures AlwaysConserved(EMPTY, actions) <==> NeverForeign(EMPTY, actions)
  {
    ConservedIff(EMPTY, actions);
  }

  lemma GpuRestore(s: Queues, item: Queued)
    requires item.task in s.labels && s.labels[item.task].queue == Gpu
    ensures var t := Step(s, Restore(item, None));
            && t.gpu == s.gpu + [item] && t.cpu == s.cpu && t.io == s.io && t.puts == s.puts
            && item.task in t.labels && t.labels[item.task].queue == Gpu
  {
    hide Back;
  }

  ghost function PutAndTaken(now: real, priority: Priority): Queues {
    Step(Step(EMPTY, Put(0, Gpu, now, priority)), Take(Gpu, None))
  }

  lemma PutAndTakenIs(now: real, priority: Priority)
    ensures var s := PutAndTaken(now, priority);
            && s.gpu == [] && s.cpu == [] && s.io == [] && s.puts == [0]
            && 0 in s.labels && s.labels[0].queue == Gpu && s.out == [Queued(priority(0, 0), 0, 0)]
  {
  }

  /** One task is put, taken and restored twice: the queue holds it twice. */
  lemma {:induction false} ItemRestoredTwiceIsRepeated(now: real, priority: Priority)
    ensures var x := Queued(priority(0, 0), 0, 0);
            var s := Step(Step(PutAndTaken(now, priority), Restore(x, None)), Restore(x, None));
            s.gpu == [x, x] && s.puts == [0] && Contents(s)[(0, 0)] == 2
  {
    var x := Queued(priority(0, 0), 0, 0);
    var s := PutAndTaken(now, priority);
    PutAndTakenIs(now, priority);
    hide PutAndTaken, Step;
    GpuRestore(s, x);
    GpuRestore(Step(s, Restore(x, None)), x);
    BaresAppend([], x);
    BaresAppend([x], x);
    assert [] + [x] == [x] && [x] + [x] == [x, x];
  }

  lemma {:induction false} NumbersAreUnique(puts: seq<Task>, n: nat, task: Task)
    ensures Numbered(puts)[(n, task)] == if n < |puts| && puts[n] == task then 1 else 0
  {
    if puts != [] { NumbersAreUnique(puts[..|puts| - 1], n, task); }
  }

  /** The queues hold exactly what was put and is not out, each number once: putting,
      peeking, taking and snapshots lose and repeat nothing, and neither does restoring
      what is out. */
  lemma TasksAreConserved(actions: seq<Action>, n: nat, task: Task)
    requires NeverForeign(EMPTY, actions)
    ensures var s := Run(EMPTY, actions);
            && Contents(s) + Bares(s.out) == Numbered(s.puts)
            && Contents(s)[(n, task)] + Bares(s.out)[(n, task)]
               == if n < |s.puts| && s.puts[n] == task then 1 else 0
  {
    ConservedIff(EMPTY, actions);
    NumbersAreUnique(Run(EMPTY, actions).puts, n, task);
  }

  // ----- order --------------------------------------------------------------

  lemma {:induction false} BaresHas(q: seq<Queued>, i: nat)
    requires i < |q|
    ensures Bares(q)[(q[i].sequence, q[i].task)] >= 1
  {
    if i > 0 { BaresHas(q[1..], i - 1); }
  }

  lemma {:induction false} BaresFind(q: seq<Queued>, b: (nat, Task)) returns (i: nat)
    requires b in Bares(q)
    ensures i < |q| && (q[i].sequence, q[i].task) == b
  {
    if (q[0].sequence, q[0].task) == b {
      i := 0;
    } else {
      i := BaresFind(q[1..], b);
      i := i + 1;
    }
  }

  lemma RefreshedIsMinimal(q: seq<Queued>, priority: Priority, n: nat)
    requires n < |q|
    ensures var r := Refreshed(q, priority);
            && |r| == |q| && Bares(r) == Bares(q)
            && (exists i :: 0 <= i < |q| && r[0] == q[i].(key := priority(q[i].task, q[i].sequence)))
            && AtMost(r[0].key, priority(q[n].task, q[n].sequence))
  {
    var keyed := Rekey(q, priority);
    var r := Sort(keyed);
    BaresRefreshed(q, priority);
    SortSorts(keyed);
    assert multiset(r) == multiset(keyed);
    assert r[0] in multiset(keyed) && keyed[n] in multiset(r);
    assert r[0] in keyed && keyed[n] in r;
    var j :| 0 <= j < |r| && r[j] == keyed[n];
    if j == 0 { SelfAtMost(r[0].key); } else { SortedAt(r, 0, j); }
  }

  /** Peeking brings a task to the head of its queue whose fresh key no other task's precedes,
      keeps every task with its number, and touches neither the other queues nor labels. */
  lemma PeekIsMinimal(s: Queues, name: Name, priority: Priority, n: nat)
    requires n < |Queue(s, name)|
    ensures var q := Queue(s, name); var t := Step(s, Peek(name, priority)); var r := Queue(t, name);
            && |r| == |q| && Bares(r) == Bares(q)
            && r[0].key == priority(r[0].task, r[0].sequence)
            && (exists i :: 0 <= i < |q| && q[i].task == r[0].task && q[i].sequence == r[0].sequence)
            && (forall i :: !DecidesAt(priority(q[n].task, q[n].sequence), r[0].key, i))
            && (forall other: Name :: other != name ==> Queue(t, other) == Queue(s, other))
            && t.labels == s.labels && t.out == s.out
  {
    var q := Queue(s, name);
    RefreshedIsMinimal(q, priority, n);
    LessIs(priority(q[n].task, q[n].sequence), Refreshed(q, priority)[0].key);
    hide Refreshed, Bares, Less, DecidesAt;
  }

  lemma {:induction false} SelfAtMost(a: Key)
    ensures AtMost(a, a)
  {
    if a != [] { SelfAtMost(a[1..]); }
  }

  predicate UniqueNumbers(q: seq<Queued>) {
    forall i, j :: 0 <= i < j < |q| ==> q[i].sequence != q[j].sequence
  }

  predicate Increasing(q: seq<Queued>) {
    forall i, j :: 0 <= i < j < |q| ==> q[i].sequence < q[j].sequence
  }

  /** Numbers come from the counter, so no queue holds one twice. */
  lemma NumberedIsUnique(q: seq<Queued>, puts: seq<Task>)
    requires Bares(q) <= Numbered(puts)
    ensures UniqueNumbers(q)
  {
    forall i, j | 0 <= i < j < |q| ensures q[i].sequence != q[j].sequence {
      var a, b := (q[i].sequence, q[i].task), (q[j].sequence, q[j].task);
      NumbersAreUnique(puts, a.0, a.1);
      NumbersAreUnique(puts, b.0, b.1);
      BaresHas(q, i);
      BaresHas(q, j);
      BaresDrop(q, j);
      BaresHas(DropAt(q, j), i);
      assert a != b;
    }
  }

  /** First come, first served: the key is the number. */
  function Arrival(task: Task, sequence: nat): Key {
    [sequence as real]
  }

  predicate IsArrivalKeyed(q: seq<Queued>) {
    forall x <- q :: x.key == [x.sequence as real]
  }

  lemma {:induction false} BaresUnique(q: seq<Queued>, r: seq<Queued>)
    requires Bares(q) == Bares(r) && UniqueNumbers(q)
    ensures UniqueNumbers(r)
  {
    forall i, j | 0 <= i < j < |r| ensures r[i].sequence != r[j].sequence {
      BaresHas(r, i);
      BaresHas(r, j);
      BaresDrop(r, j);
      BaresHas(DropAt(r, j), i);
      var k := BaresFind(q, (r[i].sequence, r[i].task));
      var l := BaresFind(q, (r[j].sequence, r[j].task));
      if k == l {
        BaresDrop(q, k);
        var m := BaresFind(DropAt(q, k), (r[i].sequence, r[i].task));
      }
    }
  }

  lemma ArrivalKeyed(q: seq<Queued>)
    ensures IsArrivalKeyed(Refreshed(q, Arrival)) && Sorted(Refreshed(q, Arrival))
  {
    var keyed := Rekey(q, Arrival);
    var r := Sort(keyed);
    SortSorts(keyed);
    hide Sort, Sorted;
    forall x <- r ensures x.key == [x.sequence as real] {
      assert x in multiset(r);
      assert x in multiset(keyed);
      assert x in keyed;
      var i :| 0 <= i < |keyed| && keyed[i] == x;
      assert keyed[i] == q[i].(key := Arrival(q[i].task, q[i].sequence));
      assert x.key == Arrival(x.task, x.sequence);
    }
  }

  lemma ArrivalLess(a: nat, b: nat)
    ensures Less([a as real], [b as real]) <==> a < b
  {
  }

  lemma ArrivalIncreases(r: seq<Queued>)
    requires Sorted(r) && IsArrivalKeyed(r) && UniqueNumbers(r)
    ensures Increasing(r)
  {
    forall i, j | 0 <= i < j < |r| ensures r[i].sequence < r[j].sequence {
      SortedAt(r, i, j);
      assert r[i] in r && r[j] in r;
      ArrivalLess(r[j].sequence, r[i].sequence);
    }
  }

  lemma ArrivalRefresh(q: seq<Queued>)
    requires UniqueNumbers(q)
    ensures var r := Refreshed(q, Arrival); IsArrivalKeyed(r) && Increasing(r) && Bares(r) == Bares(q)
  {
    BaresRefreshed(q, Arrival);
    BaresUnique(q, Refreshed(q, Arrival));
    ArrivalKeyed(q);
    hide Refreshed, Bares, Sorted, IsArrivalKeyed, UniqueNumbers, Increasing;
    ArrivalIncreases(Refreshed(q, Arrival));
  }

  lemma SameHead(a: seq<Queued>, b: seq<Queued>)
    requires a != [] && Bares(a) == Bares(b) && Increasing(a) && Increasing(b)
    requires IsArrivalKeyed(a) && IsArrivalKeyed(b)
    ensures b != [] && a[0] == b[0]
  {
    BaresHas(a, 0);
    var j := BaresFind(b, (a[0].sequence, a[0].task));
    BaresHas(b, 0);
    var k := BaresFind(a, (b[0].sequence, b[0].task));
    hide Bares;
  }

  lemma NothingMeansEmpty(q: seq<Queued>)
    requires Bares(q) == multiset{}
    ensures q == []
  {
  }

  lemma TailBares(a: seq<Queued>)
    requires a != []
    ensures Bares(a[1..]) == Bares(a) - multiset{(a[0].sequence, a[0].task)}
  {
  }

  lemma {:induction false} IncreasingIsUnique(a: seq<Queued>, b: seq<Queued>)
    requires Bares(a) == Bares(b) && Increasing(a) && Increasing(b) && IsArrivalKeyed(a) && IsArrivalKeyed(b)
    ensures a == b
  {
    if a == [] {
      NothingMeansEmpty(b);
    } else {
      SameHead(a, b);
      TailBares(a);
      TailBares(b);
      hide Bares;
      IncreasingIsUnique(a[1..], b[1..]);
      assert a == [a[0]] + a[1..] && b == [b[0]] + b[1..];
    }
  }

  lemma QueueIsUnique(actions: seq<Action>, name: Name)
    requires NeverForeign(EMPTY, actions)
    ensures UniqueNumbers(Queue(Run(EMPTY, actions), name))
  {
    ConservedIff(EMPTY, actions);
    var s := Run(EMPTY, actions);
    assert Bares(Queue(s, name)) <= Contents(s) <= Numbered(s.puts) by { hide Bares; }
    NumberedIsUnique(Queue(s, name), s.puts);
  }

  /** A first-come key yields arrival order, also for tasks that were taken and put back
      in between: taking any item and restoring it changes nothing a refresh shows. */
  lemma TakenAndRestoredKeepsItsTurn(actions: seq<Action>, name: Name, i: nat)
    requires NeverForeign(EMPTY, actions) && i < |Queue(Run(EMPTY, actions), name)|
    ensures var q := Queue(Run(EMPTY, actions), name);
            && Increasing(Refreshed(q, Arrival))
            && Refreshed(DropAt(q, i) + [q[i]], Arrival) == Refreshed(q, Arrival)
  {
    var q := Queue(Run(EMPTY, actions), name);
    QueueIsUnique(actions, name);
    ArrivalRefresh(q);
    var back := DropAt(q, i) + [q[i]];
    BaresDrop(q, i);
    BaresAppend(DropAt(q, i), q[i]);
    BaresUnique(q, back);
    ArrivalRefresh(back);
    IncreasingIsUnique(Refreshed(back, Arrival), Refreshed(q, Arrival));
  }

  // ----- labels -------------------------------------------------------------

  predicate Holds(q: seq<Queued>, task: Task) {
    q != [] && (q[0].task == task || Holds(q[1..], task))
  }

  /** Every queued task is labelled with the queue it is in. */
  ghost predicate LabelsAgree(s: Queues) {
    forall name: Name, task: Task :: Holds(Queue(s, name), task) ==>
      task in s.labels && s.labels[task].queue == name
  }

  /** A put or a restore of a task that some other queue still holds. */
  predicate Straddles(s: Queues, a: Action) {
    match a
    case Put(task, name, _, _) => HeldElsewhere(s, task, name)
    case Restore(item, to) => HeldElsewhere(s, item.task, Target(s, item.task, to))
    case _ => false
  }

  predicate HeldElsewhere(s: Queues, task: Task, name: Name) {
    exists other: Name :: other != name && Holds(Queue(s, other), task)
  }

  lemma {:induction false} HoldsConcat(p: seq<Queued>, q: seq<Queued>, task: Task)
    ensures Holds(p + q, task) <==> Holds(p, task) || Holds(q, task)
  {
    if p == [] {
      assert p + q == q;
    } else {
      assert (p + q)[1..] == p[1..] + q;
      HoldsConcat(p[1..], q, task);
    }
  }

  lemma HoldsAppend(q: seq<Queued>, x: Queued, task: Task)
    ensures Holds(q + [x], task) <==> Holds(q, task) || x.task == task
  {
    HoldsConcat(q, [x], task);
  }

  lemma HoldsDrop(q: seq<Queued>, i: nat, task: Task)
    requires i < |q| && Holds(DropAt(q, i), task)
    ensures Holds(q, task)
  {
    HoldsConcat(q[..i], q[i + 1..], task);
    HoldsConcat([q[i]], q[i + 1..], task);
    HoldsConcat(q[..i], [q[i]] + q[i + 1..], task);
    assert q == q[..i] + ([q[i]] + q[i + 1..]);
  }

  lemma {:induction false} HoldsRekey(q: seq<Queued>, priority: Priority, task: Task)
    ensures Holds(Rekey(q, priority), task) <==> Holds(q, task)
  {
    if q != [] {
      assert Rekey(q, priority)[1..] == Rekey(q[1..], priority);
      HoldsRekey(q[1..], priority, task);
    }
  }

  lemma {:induction false} HoldsInsert(x: Queued, q: seq<Queued>, task: Task)
    ensures Holds(Insert(x, q), task) <==> x.task == task || Holds(q, task)
  {
    if q != [] {
      if AtMost(x.key, q[0].key) {
        assert ([x] + q)[1..] == q;
      } else {
        HoldsInsert(x, q[1..], task);
        assert ([q[0]] + Insert(x, q[1..]))[1..] == Insert(x, q[1..]);
      }
    }
  }

  lemma {:induction false} HoldsSort(q: seq<Queued>, task: Task)
    ensures Holds(Sort(q), task) <==> Holds(q, task)
  {
    if q != [] {
      HoldsSort(q[1..], task);
      HoldsInsert(q[0], Sort(q[1..]), task);
    }
  }

  lemma HoldsRefreshed(q: seq<Queued>, priority: Priority, task: Task)
    ensures Holds(Refreshed(q, priority), task) <==> Holds(q, task)
  {
    HoldsRekey(q, priority, task);
    HoldsSort(Rekey(q, priority), task);
  }

  lemma {:induction false} RelabelIs(labels: map<Task, Label>, q: seq<Queued>, name: Name, task: Task)
    ensures var after := Relabel(labels, q, name);
            && (task in after <==> task in labels || Holds(q, task))
            && (task in after ==> after[task].queue == if Holds(q, task) then name else labels[task].queue)
    decreases |q|
  {
    if q != [] {
      RelabelIs(Labelled(labels, q[0].task, name), q[1..], name, task);
    }
  }

  /** Appending a task to a queue and labelling it so keeps the labels right exactly
      when no other queue holds it. */
  lemma AppendAgreesIff(s: Queues, t: Queues, name: Name, x: Queued)
    requires LabelsAgree(s) && Queue(t, name) == Queue(s, name) + [x]
    requires forall other: Name :: other != name ==> Queue(t, other) == Queue(s, other)
    requires x.task in t.labels && t.labels[x.task].queue == name
    requires forall task: Task :: task != x.task ==> (task in s.labels <==> task in t.labels)
    requires forall task <- s.labels :: task != x.task ==> task in t.labels && t.labels[task] == s.labels[task]
    ensures LabelsAgree(t) <==> !HeldElsewhere(s, x.task, name)
  {
    forall task: Task ensures Holds(Queue(t, name), task) <==> Holds(Queue(s, name), task) || task == x.task {
      HoldsAppend(Queue(s, name), x, task);
    }
    hide Holds, Queue;
  }

  lemma SnapshotLabels(s: Queues, priority: Priority, task: Task)
    requires task in s.labels
    ensures var t := DoSnapshot(s, priority);
            && task in t.labels
            && t.labels[task].queue == if Holds(s.io, task) then Io else if Holds(s.cpu, task) then Cpu
                                       else if Holds(s.gpu, task) then Gpu else s.labels[task].queue
  {
    var gpu := Relabel(s.labels, Refreshed(s.gpu, priority), Gpu);
    var cpu := Relabel(gpu, Refreshed(s.cpu, priority), Cpu);
    HoldsRefreshed(s.gpu, priority, task);
    HoldsRefreshed(s.cpu, priority, task);
    HoldsRefreshed(s.io, priority, task);
    hide Refreshed, Holds, Relabel;
    RelabelIs(s.labels, Refreshed(s.gpu, priority), Gpu, task);
    RelabelIs(gpu, Refreshed(s.cpu, priority), Cpu, task);
    RelabelIs(cpu, Refreshed(s.io, priority), Io, task);
  }

  lemma AgreesAt(s: Queues, name: Name, task: Task)
    requires LabelsAgree(s) && Holds(Queue(s, name), task)
    ensures task in s.labels && s.labels[task].queue == name
  {
  }

  lemma SnapshotAgreesAt(s: Queues, priority: Priority, name: Name, task: Task)
    requires LabelsAgree(s) && Holds(Queue(s, name), task)
    ensures var t := DoSnapshot(s, priority); task in t.labels && t.labels[task].queue == name
  {
    hide LabelsAgree, Holds, DoSnapshot;
    AgreesAt(s, name, task);
    SnapshotLabels(s, priority, task);
    if Holds(s.gpu, task) { AgreesAt(s, Gpu, task); }
    if Holds(s.cpu, task) { AgreesAt(s, Cpu, task); }
    if Holds(s.io, task) { AgreesAt(s, Io, task); }
  }

  lemma SnapshotQueue(s: Queues, priority: Priority, name: Name)
    ensures Queue(DoSnapshot(s, priority), name) == Refreshed(Queue(s, name), priority)
  {
  }

  lemma SnapshotAgrees(s: Queues, priority: Priority)
    requires LabelsAgree(s)
    ensures LabelsAgree(DoSnapshot(s, priority))
  {
    hide Holds, Refreshed, Queue, DoSnapshot;
    var t := DoSnapshot(s, priority);
    forall name: Name, task: Task | Holds(Queue(t, name), task)
      ensures task in t.labels && t.labels[task].queue == name
    {
      hide LabelsAgree;
      SnapshotQueue(s, priority, name);
      HoldsRefreshed(Queue(s, name), priority, task);
      SnapshotAgreesAt(s, priority, name, task);
    }
  }

  lemma PutAgreesIff(s: Queues, task: Task, name: Name, now: real, priority: Priority)
    requires LabelsAgree(s)
    ensures LabelsAgree(DoPut(s, task, name, now, priority)) <==> !HeldElsewhere(s, task, name)
  {
    hide Holds, LabelsAgree;
    AppendAgreesIff(s, DoPut(s, task, name, now, priority), name, Queued(priority(task, s.next), s.next, task));
  }

  lemma RestoreAgreesIff(s: Queues, item: Queued, to: Option<Name>)
    requires LabelsAgree(s)
    ensures LabelsAgree(DoRestore(s, item, to)) <==> !HeldElsewhere(s, item.task, Target(s, item.task, to))
  {
    hide Holds, LabelsAgree, Target, Back;
    AppendAgreesIff(s, DoRestore(s, item, to), Target(s, item.task, to), item);
  }

  lemma TakeAgrees(s: Queues, name: Name, wanted: Option<Task>)
    requires LabelsAgree(s)
    ensures LabelsAgree(DoTake(s, name, wanted))
  {
    var q, t := Queue(s, name), DoTake(s, name, wanted);
    var i := Place(q, wanted);
    if i < |q| {
      hide Place;
      forall other: Name, task: Task | Holds(Queue(t, other), task)
        ensures task in t.labels && t.labels[task].queue == other
      {
        if other == name { HoldsDrop(q, i, task); }
        hide Holds, DropAt;
        assert Holds(Queue(s, other), task);
      }
    }
  }

  lemma PeekQueue(s: Queues, name: Name, q: seq<Queued>, other: Name)
    ensures SetQueue(s, name, q).labels == s.labels
    ensures Queue(SetQueue(s, name, q), other) == if other == name then q else Queue(s, other)
  {
  }

  lemma PeekAgrees(s: Queues, name: Name, priority: Priority)
    requires LabelsAgree(s)
    ensures LabelsAgree(SetQueue(s, name, Refreshed(Queue(s, name), priority)))
  {
    hide Holds, Refreshed, Queue, SetQueue;
    var t := SetQueue(s, name, Refreshed(Queue(s, name), priority));
    forall other: Name, task: Task | Holds(Queue(t, other), task)
      ensures task in t.labels && t.labels[task].queue == other
    {
      hide LabelsAgree;
      PeekQueue(s, name, Refreshed(Queue(s, name), priority), other);
      HoldsRefreshed(Queue(s, name), priority, task);
      AgreesAt(s, other, task);
    }
  }

  /** Every task stays in the queue it is labelled with exactly while no step puts or
      restores a task that another queue still holds. */
  lemma LabelsStayRightIff(s: Queues, a: Action)
    requires LabelsAgree(s)
    ensures LabelsAgree(Step(s, a)) <==> !Straddles(s, a)
  {
    hide LabelsAgree, HeldElsewhere, DoPut, DoTake, DoSnapshot, Refreshed, SetQueue;
    match a
    case Put(task, name, now, priority) => PutAgreesIff(s, task, name, now, priority);
    case Peek(name, priority) => PeekAgrees(s, name, priority);
    case Take(name, wanted) => TakeAgrees(s, name, wanted);
    case Restore(item, to) => RestoreAgreesIff(s, item, to);
    case Snapshot(priority) => SnapshotAgrees(s, priority);
  }

  ghost predicate AlwaysRight(s: Queues, actions: seq<Action>)
    decreases |actions|
  {
    LabelsAgree(s) && (actions == [] || AlwaysRight(Step(s, actions[0]), actions[1..]))
  }

  predicate NeverStraddles(s: Queues, actions: seq<Action>)
    decreases |actions|
  {
    actions == [] || (!Straddles(s, actions[0]) && NeverStraddles(Step(s, actions[0]), actions[1..]))
  }

  lemma {:induction false} RightIff(s: Queues, actions: seq<Action>)
    requires LabelsAgree(s)
    ensures AlwaysRight(s, actions) <==> NeverStraddles(s, actions)
    decreases |actions|
  {
    if actions != [] {
      LabelsStayRightIff(s, actions[0]);
      hide LabelsAgree, Straddles, Step;
      if !Straddles(s, actions[0]) { RightIff(Step(s, actions[0]), actions[1..]); }
    }
  }

  /** Over a whole run: the labels are right throughout exactly when no step puts or
      restores a task that another queue still holds. */
  lemma {:induction false} LabelsAreRightIff(actions: seq<Action>)
    ensures AlwaysRight(EMPTY, actions) <==> NeverStraddles(EMPTY, actions)
  {
    RightIff(EMPTY, actions);
  }

  /** A task put twice: the gpu queue still holds it, its label says cpu. */
  lemma {:induction false} TaskPutTwiceIsMislabelled(now: real, priority: Priority)
    ensures var s := Run(EMPTY, [Put(0, Gpu, now, priority), Put(0, Cpu, now, priority)]);
            Holds(s.gpu, 0) && 0 in s.labels && s.labels[0].queue == Cpu && !LabelsAgree(s)
  {
    var first, second := Put(0, Gpu, now, priority), Put(0, Cpu, now, priority);
    assert [first, second][1..] == [second] && [second][1..] == [];
    var s := Step(EMPTY, first);
    assert Run(EMPTY, [first, second]) == Run(s, [second]) == Step(s, second);
    assert Holds(Queue(Step(s, second), Gpu), 0);
  }

  // ----- what a put and a restore leave -------------------------------------

  /** A put is last in its own queue, with the next number and a fresh key, and its task is
      labelled so; nothing else changes. */
  lemma PutIsLast(s: Queues, task: Task, name: Name, now: real, priority: Priority)
    ensures var t := Step(s, Put(task, name, now, priority)); var q := Queue(s, name);
            && |Queue(t, name)| == |q| + 1 && Queue(t, name)[..|q|] == q
            && Queue(t, name)[|q|] == Queued(priority(task, s.next), s.next, task)
            && (forall other: Name :: other != name ==> Queue(t, other) == Queue(s, other))
            && t.next == s.next + 1 && t.out == s.out && t.puts == s.puts + [task]
            && task in t.labels && t.labels[task] == Label(name, s.next, now)
            && t.labels - {task} == s.labels - {task}
  {
  }

  /** A restored item is last in the named queue, else in the one its task is labelled with,
      else in cpu, unchanged and labelled so. */
  lemma RestoredIsLast(s: Queues, item: Queued, to: Option<Name>)
    ensures var t := Step(s, Restore(item, to));
            var name := if to.Some? then to.value
                        else if item.task in s.labels then s.labels[item.task].queue else Cpu;
            var q := Queue(s, name);
            && |Queue(t, name)| == |q| + 1 && Queue(t, name)[..|q|] == q && Queue(t, name)[|q|] == item
            && (forall other: Name :: other != name ==> Queue(t, other) == Queue(s, other))
            && item.task in t.labels && t.labels[item.task].queue == name
            && t.labels - {item.task} == s.labels - {item.task}
            && t.next == s.next && t.puts == s.puts
  {
    hide Back;
  }

  /** A snapshot refreshes all three queues, loses and adds nothing, and labels every queued
      task; a task in several queues with the last of them. */
  lemma SnapshotIs(s: Queues, priority: Priority, task: Task)
    ensures var t := Step(s, Snapshot(priority));
            && Bares(t.gpu) == Bares(s.gpu) && Bares(t.cpu) == Bares(s.cpu) && Bares(t.io) == Bares(s.io)
            && Sorted(t.gpu) && Sorted(t.cpu) && Sorted(t.io)
            && t.out == s.out && t.next == s.next
            && (Holds(s.io, task) ==> task in t.labels && t.labels[task].queue == Io)
            && (Holds(s.cpu, task) && !Holds(s.io, task) ==> task in t.labels && t.labels[task].queue == Cpu)
            && (Holds(s.gpu, task) && !Holds(s.cpu, task) && !Holds(s.io, task) ==>
                  task in t.labels && t.labels[task].queue == Gpu)
  {
    BaresRefreshed(s.gpu, priority);
    BaresRefreshed(s.cpu, priority);
    BaresRefreshed(s.io, priority);
    SortSorts(Rekey(s.gpu, priority));
    SortSorts(Rekey(s.cpu, priority));
    SortSorts(Rekey(s.io, priority));
    var gpu := Relabel(s.labels, Refreshed(s.gpu, priority), Gpu);
    var cpu := Relabel(gpu, Refreshed(s.cpu, priority), Cpu);
    HoldsRefreshed(s.gpu, priority, task);
    HoldsRefreshed(s.cpu, priority, task);
    HoldsRefreshed(s.io, priority, task);
    hide Sort, Rekey, Holds, Relabel, Bares, Sorted;
    RelabelIs(s.labels, Refreshed(s.gpu, priority), Gpu, task);
    RelabelIs(gpu, Refreshed(s.cpu, priority), Cpu, task);
    RelabelIs(cpu, Refreshed(s.io, priority), Io, task);
  }

  // ----- the queues object --------------------------------------------------

  class HeterogeneousTaskQueues {
    var gpu: seq<Queued>
    var cpu: seq<Queued>
    var io: seq<Queued>
    var sequence: nat
    var labels: map<Task, Label>
    ghost var puts: seq<Task>
    ghost var out: seq<Queued>

    ghost function State(): Queues
      reads this
    {
      Queues(gpu, cpu, io, sequence, labels, puts, out)
    }

    constructor ()
      ensures State() == EMPTY && Inv(State())
    {
      gpu, cpu, io, sequence, labels, puts, out := [], [], [], 0, map[], [], [];
    }

    method ReadQueue(name: Name) returns (q: seq<Queued>)
      ensures q == Queue(State(), name)
    {
      match name
      case Gpu => q := gpu;
      case Cpu => q := cpu;
      case Io => q := io;
    }

    method WriteQueue(name: Name, q: seq<Queued>)
      modifies this`gpu, this`cpu, this`io
      ensures State() == SetQueue(old(State()), name, q)
    {
      match name
      case Gpu => gpu := q;
      case Cpu => cpu := q;
      case Io => io := q;
    }

    /** `strategyName` is what the strategy answers when no queue is named. */
    method PutTask(task: Task, queueName: string, strategyName: string, now: real, priority: Priority)
      returns (name: Name)
      modifies this
      ensures name == Normalize(if queueName == "" then strategyName else queueName)
      ensures State() == DoPut(old(State()), task, name, now, priority)
    {
      name := Normalize(if queueName == "" then strategyName else queueName);
      var q := ReadQueue(name);
      WriteQueue(name, q + [Queued(priority(task, sequence), sequence, task)]);
      labels := labels[task := Label(name, sequence, now)];
      sequence := sequence + 1;
      puts := puts + [task];
    }

    /** Every key is recomputed, then the list is sorted. */
    method RefreshQueue(name: Name, priority: Priority) returns (q: seq<Queued>)
      modifies this`gpu, this`cpu, this`io
      ensures q == Refreshed(Queue(old(State()), name), priority)
      ensures State() == SetQueue(old(State()), name, q)
    {
      var was := ReadQueue(name);
      q := was;
      var i := 0;
      while i < |q|
        invariant 0 <= i <= |q| == |was|
        invariant forall j :: 0 <= j < i ==> q[j] == was[j].(key := priority(was[j].task, was[j].sequence))
        invariant forall j :: i <= j < |q| ==> q[j] == was[j]
      {
        q := q[i := q[i].(key := priority(q[i].task, q[i].sequence))];
        i := i + 1;
      }
      assert q == Rekey(was, priority);
      q := Sort(q);
      WriteQueue(name, q);
    }

    method PeekTask(queueName: string, priority: Priority) returns (task: Option<Task>)
      modifies this`gpu, this`cpu, this`io
      ensures State() == Step(old(State()), Peek(Normalize(queueName), priority))
      ensures task.None? <==> Queue(old(State()), Normalize(queueName)) == []
      ensures task.Some? ==> task.value == Queue(State(), Normalize(queueName))[0].task
    {
      var q := RefreshQueue(Normalize(queueName), priority);
      if q == [] { return None; }
      return Some(q[0].task);
    }

    /** The item at `i` leaves its queue. */
    method RemoveAt(name: Name, q: seq<Queued>, i: nat)
      requires q == Queue(State(), name) && i < |q|
      modifies this`gpu, this`cpu, this`io, this`out
      ensures State() == SetQueue(old(State()), name, DropAt(q, i)).(out := old(out) + [q[i]])
      ensures Queue(State(), name) == q[..i] + q[i + 1..] && out == old(out) + [q[i]]
      ensures forall other: Name :: other != name ==> Queue(State(), other) == Queue(old(State()), other)
    {
      WriteQueue(name, q[..i] + q[i + 1..]);
      out := out + [q[i]];
    }

    /** The head, or the first item of the named task, which is at `i`; the others stay
        where they are.  None is the error of an empty queue or of a task not in it. */
    method TakeTask(queueName: string, wanted: Option<Task>) returns (taken: Option<Queued>, i: nat)
      modifies this
      ensures State() == DoTake(old(State()), Normalize(queueName), wanted)
      ensures taken.Some? ==>
                var q := Queue(old(State()), Normalize(queueName));
                && i < |q| && taken.value == q[i] && out == old(out) + [q[i]]
                && Queue(State(), Normalize(queueName)) == q[..i] + q[i + 1..]
                && (wanted.None? ==> i == 0)
                && (wanted.Some? ==> q[i].task == wanted.value && forall j :: 0 <= j < i ==> q[j].task != wanted.value)
      ensures forall other: Name :: other != Normalize(queueName) || taken.None? ==>
                Queue(State(), other) == Queue(old(State()), other)
      ensures taken.None? <==>
                Queue(old(State()), Normalize(queueName)) == []
                || (wanted.Some? && !Holds(Queue(old(State()), Normalize(queueName)), wanted.value))
    {
      i := 0;
      hide Normalize, SetQueue, DropAt, Queue, State;
      var name := Normalize(queueName);
      var q := ReadQueue(name);
      if wanted.Some? { IndexHolds(q, wanted.value); }
      if q == [] { return None, 0; }
      if wanted.Some? {
        while i < |q| && q[i].task != wanted.value
          invariant 0 <= i <= |q| && forall j :: 0 <= j < i ==> q[j].task != wanted.value
        {
          i := i + 1;
        }
        if i == |q| { return None, i; }
      }
      assert i == Place(q, wanted);
      RemoveAt(name, q, i);
      taken := Some(q[i]);
    }

    method RestoreTask(queued: Queued, queueName: string) returns (name: Name)
      modifies this
      ensures State() == DoRestore(old(State()), queued, Named(queueName))
      ensures Queue(State(), name) == Queue(old(State()), name) + [queued]
    {
      hide Normalize, Back;
      if queueName != "" {
        name := Normalize(queueName);
      } else {
        name := if queued.task in labels then labels[queued.task].queue else Cpu;
      }
      var q := ReadQueue(name);
      WriteQueue(name, q + [queued]);
      labels := Labelled(labels, queued.task, name);
      out := Back(out, queued);
    }

    /** One queue of the snapshot: refreshed, and its tasks labelled with it. */
    method SnapshotQueue(name: Name, priority: Priority) returns (q: seq<Queued>)
      modifies this`gpu, this`cpu, this`io, this`labels
      ensures q == Refreshed(Queue(old(State()), name), priority)
      ensures State() == SetQueue(old(State()), name, q).(labels := Relabel(old(labels), q, name))
    {
      q := RefreshQueue(name, priority);
      var i := 0;
      ghost var was := labels;
      hide Refreshed, SetQueue;
      while i < |q|
        invariant 0 <= i <= |q| && Relabel(labels, q[i..], name) == Relabel(was, q, name)
        invariant State().(labels := was) == SetQueue(old(State()), name, q)
      {
        assert q[i..][1..] == q[i + 1..];
        labels := Labelled(labels, q[i].task, name);
        i := i + 1;
      }
      assert q[i..] == [];
    }

    method QueueSnapshot(priority: Priority)
      returns (gpuTasks: seq<Queued>, cpuTasks: seq<Queued>, ioTasks: seq<Queued>)
      modifies this`gpu, this`cpu, this`io, this`labels
      ensures State() == DoSnapshot(old(State()), priority)
      ensures gpuTasks == gpu && cpuTasks == cpu && ioTasks == io
    {
      hide Refreshed, Relabel;
      gpuTasks := SnapshotQueue(Gpu, priority);
      cpuTasks := SnapshotQueue(Cpu, priority);
      ioTasks := SnapshotQueue(Io, priority);
    }
  }

  lemma {:induction false} IndexHolds(q: seq<Queued>, task: Task)
    ensures IndexOf(q, task) < |q| <==> Holds(q, task)
  {
    if q != [] && q[0].task != task { IndexHolds(q[1..], task); }
  }
}
