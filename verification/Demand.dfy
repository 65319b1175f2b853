/** Which model requests wait for an instance, and how many deployments are under way
    (maze/core/scheduler/llm_instance.py: `record_model_demand`, `mark_model_deploying`,
    `_clear_model_deploying_locked`, `clear_workflow_state`, `_refresh_pending_anchor`). */
module Demand {
  import opened Options

  type Id = nat                          // an instance id, ordered as its string
  type Key = (string, string)            // model and backend
  type Request = (string, string)        // workflow and task

  /** A model anchor and the memory `model_memory_mib` estimates for it. */
  datatype Anchor = Anchor(text: string, memory: nat)

  /** `anchors` are Python dictionaries: no key twice, in order of first insertion. */
  datatype Book = Book(
    pending: map<Key, set<Request>>,
    anchors: map<Key, seq<(Request, Anchor)>>,
    cached: map<Key, Anchor>,
    auto: map<Id, Key>,
    deploying: map<Key, nat>)

  datatype Action =
    | Record(key: Key, request: Request, anchor: Anchor)
    | Satisfy(key: Key, request: Request)
    | ClearWorkflow(workflow: string)
    | Mark(key: Key, id: Option<Id>)
    | Clear(target: Target)

  datatype Target = OfInstance(id: Id) | OfModel(key: Key)

  const EMPTY := Book(map[], map[], map[], map[], map[])

  // ----- insertion-ordered dictionaries -------------------------------------

  function KeysOf<K, V(==)>(d: seq<(K, V)>): set<K> {
    set e <- d :: e.0
  }

  ghost predicate NoKeyTwice<K, V>(d: seq<(K, V)>) {
    forall i, j :: 0 <= i < j < |d| ==> d[i].0 != d[j].0
  }

  /** Assigning an existing key keeps its place; a new key goes last. */
  function Assign<K(==), V(==)>(d: seq<(K, V)>, k: K, v: V): (r: seq<(K, V)>)
    ensures KeysOf(r) == KeysOf(d) + {k}
    ensures NoKeyTwice(d) ==> NoKeyTwice(r)
    ensures forall e <- r :: e == (k, v) || (e in d && e.0 != k)
  {
    if k in KeysOf(d) then
      var r := seq(|d|, i requires 0 <= i < |d| => if d[i].0 == k then (k, v) else d[i]);
      assert forall i :: 0 <= i < |d| ==> r[i].0 == d[i].0;
      r
    else
      assert (d + [(k, v)])[|d|] == (k, v);
      d + [(k, v)]
  }

  /** Keeping the entries whose key is wanted. */
  function Restrict<K(==), V(==)>(d: seq<(K, V)>, keys: set<K>): (r: seq<(K, V)>)
    ensures KeysOf(r) == KeysOf(d) * keys
    ensures forall e <- r :: e in d && e.0 in keys
    ensures forall e <- d :: e.0 in keys ==> e in r
    ensures NoKeyTwice(d) ==> NoKeyTwice(r)
  {
    if d == [] then []
    else
      assert d == [d[0]] + d[1..];
      assert forall i :: 1 <= i < |d| ==> d[i] == d[1..][i - 1];
      var t := Restrict(d[1..], keys);
      assert forall i :: 0 <= i < |t| ==> t[i] in t && t[i] in d[1..];
      if d[0].0 in keys then [d[0]] + t else t
  }

  /** `max` over the values: the first of the largest. */
  function Largest<K>(d: seq<(K, Anchor)>): (r: Anchor)
    requires d != []
    ensures exists e <- d :: e.1 == r
    ensures forall e <- d :: e.1.memory <= r.memory
  {
    assert d[0] in d;
    if |d| == 1 then d[0].1
    else
      var t := Largest(d[1..]);
      assert d == [d[0]] + d[1..];
      if d[0].1.memory >= t.memory then d[0].1 else t
  }

  // ----- the operations -----------------------------------------------------

  function Pending(b: Book, key: Key): set<Request> {
    if key in b.pending then b.pending[key] else {}
  }

  function Anchors(b: Book, key: Key): seq<(Request, Anchor)> {
    if key in b.anchors then b.anchors[key] else []
  }

  function Deploying(b: Book, key: Key): nat {
    if key in b.deploying then b.deploying[key] else 0
  }

  /** `_refresh_pending_anchor`. */
  function Refresh(b: Book, key: Key): Book {
    if Anchors(b, key) == [] then b.(cached := b.cached - {key})
    else b.(cached := b.cached[key := Largest(Anchors(b, key))])
  }

  function DoRecord(b: Book, key: Key, request: Request, anchor: Anchor): Book {
    Refresh(b.(pending := b.pending[key := Pending(b, key) + {request}],
               anchors := b.anchors[key := Assign(Anchors(b, key), request, anchor)]),
            key)
  }

  /** What a successful route does to its own request. */
  function DoSatisfy(b: Book, key: Key, request: Request): Book {
    Refresh(b.(pending := b.pending[key := Pending(b, key) - {request}],
               anchors := b.anchors[key := Restrict(Anchors(b, key), KeysOf(Anchors(b, key)) - {request})]),
            key)
  }

  function Without(requests: set<Request>, workflow: string): set<Request> {
    set r <- requests | r.0 != workflow
  }

  function Kept(b: Book, workflow: string, key: Key): seq<(Request, Anchor)> {
    Restrict(Anchors(b, key), Without(Pending(b, key), workflow))
  }

  function ClearedPending(b: Book, workflow: string, keys: set<Key>): map<Key, set<Request>> {
    b.pending + (map k <- keys :: Without(Pending(b, k), workflow))
  }

  function ClearedAnchors(b: Book, workflow: string, keys: set<Key>): map<Key, seq<(Request, Anchor)>> {
    b.anchors + (map k <- keys :: Kept(b, workflow, k))
  }

  function ClearedCache(b: Book, workflow: string, keys: set<Key>): map<Key, Anchor> {
    map k <- keys + b.cached.Keys
      | if k in keys then Kept(b, workflow, k) != [] else k in b.cached
      :: if k in keys then Largest(Kept(b, workflow, k)) else b.cached[k]
  }

  /** The loop of `clear_workflow_state` over these models. */
  function ClearThese(b: Book, workflow: string, keys: set<Key>): Book {
    b.(pending := ClearedPending(b, workflow, keys), anchors := ClearedAnchors(b, workflow, keys),
       cached := ClearedCache(b, workflow, keys))
  }

  /** One turn of that loop. */
  function ClearOne(b: Book, workflow: string, key: Key): Book {
    Refresh(b.(pending := b.pending[key := Without(Pending(b, key), workflow)],
               anchors := b.anchors[key := Kept(b, workflow, key)]),
            key)
  }

  function DoMark(b: Book, key: Key, id: Option<Id>): Book {
    if id.Some? && id.value in b.auto then b
    else
      b.(auto := if id.Some? then b.auto[id.value := key] else b.auto,
         deploying := b.deploying[key := Deploying(b, key) + 1])
  }

  function DoClear(b: Book, target: Target): Book {
    if target.OfInstance? && target.id !in b.auto then b
    else
      var key := if target.OfInstance? then b.auto[target.id] else target.key;
      var c := if target.OfInstance? then b.(auto := b.auto - {target.id}) else b;
      if Deploying(c, key) == 0 then c
      else c.(deploying := c.deploying[key := Deploying(c, key) - 1])
  }

  function Step(b: Book, a: Action): Book {
    match a
    case Record(key, request, anchor) => DoRecord(b, key, request, anchor)
    case Satisfy(key, request) => DoSatisfy(b, key, request)
    case ClearWorkflow(workflow) => ClearThese(b, workflow, b.pending.Keys)
    case Mark(key, id) => DoMark(b, key, id)
    case Clear(target) => DoClear(b, target)
  }

  // ----- pending requests and the cached anchor -----------------------------

  /** The three views of one model's demand agree. */
  ghost predicate KeyOk(b: Book, key: Key) {
    && NoKeyTwice(Anchors(b, key))
    && Pending(b, key) == KeysOf(Anchors(b, key))
    && (key in b.cached <==> Pending(b, key) != {})
    && (key in b.cached ==>
          && (exists e <- Anchors(b, key) :: e.1 == b.cached[key])
          && forall e <- Anchors(b, key) :: e.1.memory <= b.cached[key].memory)
  }

  ghost predicate Inv(b: Book) {
    forall key: Key :: KeyOk(b, key)
  }

  lemma RefreshOk(b: Book, key: Key)
    requires NoKeyTwice(Anchors(b, key)) && Pending(b, key) == KeysOf(Anchors(b, key))
    requires forall k: Key :: k != key ==> KeyOk(b, k)
    ensures Inv(Refresh(b, key))
  {
    var c := Refresh(b, key);
    if Anchors(b, key) != [] {
      assert Anchors(b, key)[0].0 in KeysOf(Anchors(b, key));
    }
    forall k: Key ensures KeyOk(c, k) {
      if k != key { assert KeyOk(b, k); }
    }
  }

  lemma RecordKeeps(b: Book, key: Key, request: Request, anchor: Anchor)
    requires Inv(b)
    ensures Inv(DoRecord(b, key, request, anchor))
    ensures Pending(DoRecord(b, key, request, anchor), key) == Pending(b, key) + {request}
    ensures forall k: Key :: k != key ==> Pending(DoRecord(b, key, request, anchor), k) == Pending(b, k)
  {
    var c := b.(pending := b.pending[key := Pending(b, key) + {request}],
                anchors := b.anchors[key := Assign(Anchors(b, key), request, anchor)]);
    assert KeyOk(b, key);
    forall k: Key | k != key ensures KeyOk(c, k) { assert KeyOk(b, k); }
    RefreshOk(c, key);
  }

  lemma SatisfyKeeps(b: Book, key: Key, request: Request)
    requires Inv(b)
    ensures Inv(DoSatisfy(b, key, request))
    ensures Pending(DoSatisfy(b, key, request), key) == Pending(b, key) - {request}
    ensures forall k: Key :: k != key ==> Pending(DoSatisfy(b, key, request), k) == Pending(b, k)
  {
    var c := b.(pending := b.pending[key := Pending(b, key) - {request}],
                anchors := b.anchors[key := Restrict(Anchors(b, key), KeysOf(Anchors(b, key)) - {request})]);
    assert KeyOk(b, key);
    forall k: Key | k != key ensures KeyOk(c, k) { assert KeyOk(b, k); }
    RefreshOk(c, key);
  }

  /** What clearing does to one model. */
  lemma ClearedIs(b: Book, workflow: string, keys: set<Key>, k: Key)
    ensures var c := ClearThese(b, workflow, keys);
            && Pending(c, k) == (if k in keys then Without(Pending(b, k), workflow) else Pending(b, k))
            && Anchors(c, k) == (if k in keys then Kept(b, workflow, k) else Anchors(b, k))
            && (k in c.cached <==> if k in keys then Kept(b, workflow, k) != [] else k in b.cached)
            && (k in c.cached ==>
                  c.cached[k] == if k in keys then Largest(Kept(b, workflow, k)) else b.cached[k])
  {
    hide Without, Kept, Largest;
  }

  lemma KeptIs(b: Book, workflow: string, k: Key)
    requires KeyOk(b, k)
    ensures var kept := Kept(b, workflow, k);
            && NoKeyTwice(kept) && KeysOf(kept) == Without(Pending(b, k), workflow)
            && (kept == [] <==> KeysOf(kept) == {})
  {
    var kept := Kept(b, workflow, k);
    hide Restrict, Pending, Anchors;
    assert Without(Pending(b, k), workflow) <= KeysOf(Anchors(b, k));
    if kept != [] { assert kept[0].0 in KeysOf(kept); }
  }

  /** A model whose pending requests, anchors and cache are as they were. */
  lemma SameKeyOk(b: Book, c: Book, k: Key)
    requires KeyOk(b, k) && Pending(c, k) == Pending(b, k) && Anchors(c, k) == Anchors(b, k)
    requires (k in c.cached <==> k in b.cached) && (k in c.cached ==> c.cached[k] == b.cached[k])
    ensures KeyOk(c, k)
  {
    hide Pending, Anchors, KeysOf, NoKeyTwice;
  }

  lemma ClearedKeyOk(b: Book, workflow: string, keys: set<Key>, k: Key)
    requires KeyOk(b, k)
    ensures KeyOk(ClearThese(b, workflow, keys), k)
  {
    ClearedIs(b, workflow, keys, k);
    KeptIs(b, workflow, k);
    hide ClearThese, Pending, Anchors, Kept, Without, KeysOf, NoKeyTwice;
    var c := ClearThese(b, workflow, keys);
    if k in keys {
      hide KeyOk;
      KeptKeyOk(b, c, workflow, k);
    } else {
      hide KeyOk, Largest;
      SameKeyOk(b, c, k);
    }
  }

  lemma KeptKeyOk(b: Book, c: Book, workflow: string, k: Key)
    requires var kept := Kept(b, workflow, k);
             && NoKeyTwice(kept) && Pending(c, k) == KeysOf(kept) && Anchors(c, k) == kept
             && (kept == [] <==> KeysOf(kept) == {})
             && (k in c.cached <==> kept != []) && (k in c.cached ==> c.cached[k] == Largest(kept))
    ensures KeyOk(c, k)
  {
    hide Pending, Anchors, Kept, KeysOf, NoKeyTwice;
  }

  lemma ClearKeeps(b: Book, workflow: string, keys: set<Key>)
    requires Inv(b)
    ensures Inv(ClearThese(b, workflow, keys))
    ensures forall k: Key :: Pending(ClearThese(b, workflow, keys), k)
              == if k in keys then Without(Pending(b, k), workflow) else Pending(b, k)
  {
    hide ClearThese, KeyOk, Pending;
    var c := ClearThese(b, workflow, keys);
    forall k: Key ensures KeyOk(c, k)
                  ensures Pending(c, k) == if k in keys then Without(Pending(b, k), workflow) else Pending(b, k)
    {
      assert KeyOk(b, k);
      ClearedIs(b, workflow, keys, k);
      ClearedKeyOk(b, workflow, keys, k);
    }
  }

  lemma PendingOneMore(b: Book, workflow: string, done: set<Key>, key: Key)
    ensures ClearedPending(b, workflow, done)[key := Without(Pending(b, key), workflow)]
            == ClearedPending(b, workflow, done + {key})
  {
    hide Without, Pending;
  }

  lemma AnchorsOneMore(b: Book, workflow: string, done: set<Key>, key: Key)
    ensures ClearedAnchors(b, workflow, done)[key := Kept(b, workflow, key)]
            == ClearedAnchors(b, workflow, done + {key})
  {
    hide Kept;
  }

  lemma CacheOneMore(b: Book, workflow: string, done: set<Key>, key: Key)
    ensures ClearedCache(b, workflow, done + {key})
            == if Kept(b, workflow, key) == [] then ClearedCache(b, workflow, done) - {key}
               else ClearedCache(b, workflow, done)[key := Largest(Kept(b, workflow, key))]
  {
    hide Kept, Largest;
  }

  /** The loop, one model further. */
  lemma {:induction false} ClearOneMore(b: Book, workflow: string, done: set<Key>, key: Key)
    requires key !in done
    ensures ClearOne(ClearThese(b, workflow, done), workflow, key) == ClearThese(b, workflow, done + {key})
  {
    var c := ClearThese(b, workflow, done);
    assert Pending(c, key) == Pending(b, key) && Anchors(c, key) == Anchors(b, key);
    PendingOneMore(b, workflow, done, key);
    AnchorsOneMore(b, workflow, done, key);
    CacheOneMore(b, workflow, done, key);
    assert Kept(c, workflow, key) == Kept(b, workflow, key);
    hide Without, Kept, Largest, ClearedPending, ClearedAnchors, ClearedCache, Pending;
  }

  lemma ClearNone(b: Book, workflow: string)
    ensures ClearThese(b, workflow, {}) == b
  {
    assert ClearedPending(b, workflow, {}) == b.pending && ClearedAnchors(b, workflow, {}) == b.anchors;
    assert ClearedCache(b, workflow, {}) == b.cached;
  }

  lemma TagsKeep(b: Book, c: Book)
    requires Inv(b) && c.pending == b.pending && c.anchors == b.anchors && c.cached == b.cached
    ensures Inv(c)
  {
    forall key: Key ensures KeyOk(c, key) { assert KeyOk(b, key); }
  }

  lemma StepKeeps(b: Book, a: Action)
    requires Inv(b)
    ensures Inv(Step(b, a))
  {
    match a
    case Record(key, request, anchor) => RecordKeeps(b, key, request, anchor);
    case Satisfy(key, request) => SatisfyKeeps(b, key, request);
    case ClearWorkflow(workflow) => ClearKeeps(b, workflow, b.pending.Keys);
    case Mark(_, _) => TagsKeep(b, Step(b, a));
    case Clear(_) => TagsKeep(b, Step(b, a));
  }

  /** The requests that are open after a run, computed from the run alone. */
  function Open(actions: seq<Action>, key: Key): set<Request> {
    if actions == [] then {}
    else
      var before := Open(actions[..|actions| - 1], key);
      match actions[|actions| - 1]
      case Record(k, request, _) => if k == key then before + {request} else before
      case Satisfy(k, request) => if k == key then before - {request} else before
      case ClearWorkflow(workflow) => Without(before, workflow)
      case _ => before
  }

  ghost function Run(actions: seq<Action>): (b: Book)
    ensures Inv(b)
  {
    if actions == [] then EMPTY
    else
      var b := Run(actions[..|actions| - 1]);
      StepKeeps(b, actions[|actions| - 1]);
      Step(b, actions[|actions| - 1])
  }

  lemma {:induction false} PendingIsOpen(actions: seq<Action>, key: Key)
    ensures Pending(Run(actions), key) == Open(actions, key)
  {
    if actions != [] {
      var b := Run(actions[..|actions| - 1]);
      PendingIsOpen(actions[..|actions| - 1], key);
      match actions[|actions| - 1]
      case Record(k, request, anchor) => RecordKeeps(b, k, request, anchor);
      case Satisfy(k, request) => SatisfyKeeps(b, k, request);
      case ClearWorkflow(workflow) => ClearKeeps(b, workflow, b.pending.Keys);
      case _ =>
    }
    hide KeyOk, DoRecord, DoSatisfy, ClearThese;
  }

  /** The pending requests of every model are exactly the recorded, unsatisfied and
      uncleared ones; each has one anchor; the cached anchor is a largest of them and
      is absent when there are none. */
  lemma DemandAgreesWithTheRun(actions: seq<Action>, key: Key)
    ensures var b := Run(actions);
            && Pending(b, key) == Open(actions, key) == KeysOf(Anchors(b, key))
            && (key in b.cached <==> Open(actions, key) != {})
            && (key in b.cached ==>
                  && (exists e <- Anchors(b, key) :: e.1 == b.cached[key])
                  && forall e <- Anchors(b, key) :: e.1.memory <= b.cached[key].memory)
  {
    assert KeyOk(Run(actions), key);
    PendingIsOpen(actions, key);
    hide Run, Open, Pending, Anchors, KeysOf, NoKeyTwice;
  }

  predicate IsFirstLargest<K>(d: seq<(K, Anchor)>, i: nat)
    requires i < |d|
  {
    && (forall j :: 0 <= j < i ==> d[j].1.memory < d[i].1.memory)
    && (forall j :: i <= j < |d| ==> d[j].1.memory <= d[i].1.memory)
  }

  lemma FirstLargestShifts<K>(d: seq<(K, Anchor)>, t: nat)
    requires t + 1 < |d| && IsFirstLargest(d[1..], t) && d[0].1.memory < d[t + 1].1.memory
    ensures IsFirstLargest(d, t + 1)
  {
    var rest := d[1..];
    assert forall j :: 0 <= j < |rest| ==> d[j + 1] == rest[j];
    forall j | 0 <= j < |d| ensures j < t + 1 ==> d[j].1.memory < d[t + 1].1.memory
                            ensures t + 1 <= j ==> d[j].1.memory <= d[t + 1].1.memory
    {
      if j > 0 { assert d[j] == rest[j - 1]; }
    }
  }

  /** Of the anchors that need most memory, the one recorded first. */
  lemma {:induction false} LargestIsFirst<K>(d: seq<(K, Anchor)>) returns (i: nat)
    requires d != []
    ensures i < |d| && d[i].1 == Largest(d) && IsFirstLargest(d, i)
  {
    i := 0;
    if |d| > 1 && d[0].1.memory < Largest(d[1..]).memory {
      hide Largest, IsFirstLargest;
      var t := LargestIsFirst(d[1..]);
      i := t + 1;
      FirstLargestShifts(d, t);
    } else {
      forall j | 0 <= j < |d| ensures d[j].1.memory <= d[0].1.memory { assert d[j] in d; }
    }
  }

  /** What was recorded last for a request is its anchor, and no other request's changes. */
  lemma RecordedAnchorStands(b: Book, key: Key, request: Request, anchor: Anchor)
    requires Inv(b)
    ensures var c := Step(b, Record(key, request, anchor));
            && (forall e <- Anchors(c, key) :: e == (request, anchor) || (e in Anchors(b, key) && e.0 != request))
            && (request, anchor) in Anchors(c, key)
            && forall k: Key :: k != key ==> Anchors(c, k) == Anchors(b, k)
  {
    var after := Assign(Anchors(b, key), request, anchor);
    assert request in KeysOf(after);
    var e :| e in after && e.0 == request;
    assert e == (request, anchor);
    hide Assign, Inv;
  }

  // ----- deployments --------------------------------------------------------

  function Tagged(b: Book, key: Key): set<Id> {
    set id <- b.auto | b.auto[id] == key
  }

  /** Every deploying count is the number of instances tagged for that model. */
  ghost predicate CountsAgree(b: Book) {
    forall key: Key :: Deploying(b, key) == |Tagged(b, key)|
  }

  /** A mark without an instance, or a clear without one that finds a positive count. */
  predicate Untagged(b: Book, a: Action) {
    (a.Mark? && a.id.None?) || (a.Clear? && a.target.OfModel? && Deploying(b, a.target.key) > 0)
  }

  /** One more or one fewer instance of one model, counted. */
  lemma TaggedMoves(b: Book, c: Book, key: Key, id: Id)
    requires CountsAgree(b) && id !in b.auto && c.auto == b.auto[id := key]
    requires Deploying(c, key) == Deploying(b, key) + 1
    requires forall k: Key :: k != key ==> Deploying(c, k) == Deploying(b, k)
    ensures CountsAgree(c)
  {
    forall k: Key ensures Deploying(c, k) == |Tagged(c, k)| {
      assert Deploying(b, k) == |Tagged(b, k)|;
      TaggedIs(b, c, key, id, k);
      hide CountsAgree, Deploying, Tagged;
    }
  }

  lemma TaggedIs(b: Book, c: Book, key: Key, id: Id, k: Key)
    requires id !in b.auto && c.auto == b.auto[id := key]
    ensures Tagged(c, k) == if k == key then Tagged(b, k) + {id} else Tagged(b, k)
    ensures id !in Tagged(b, k)
  {
  }

  lemma ClearTaggedAgrees(b: Book, id: Id)
    requires CountsAgree(b)
    ensures CountsAgree(DoClear(b, OfInstance(id)))
  {
    var c := DoClear(b, OfInstance(id));
    if id in b.auto {
      var key := b.auto[id];
      assert id in Tagged(b, key);
      forall k: Key ensures Deploying(c, k) == |Tagged(c, k)| {
        assert Deploying(b, k) == |Tagged(b, k)|;
        assert Tagged(c, k) == if k == key then Tagged(b, k) - {id} else Tagged(b, k);
      }
    }
  }

  /** Changing a count without changing the tags makes them disagree. */
  lemma UntaggedDisagrees(b: Book, c: Book, key: Key)
    requires CountsAgree(b) && c.auto == b.auto && Deploying(c, key) != Deploying(b, key)
    ensures !CountsAgree(c)
  {
    assert Tagged(c, key) == Tagged(b, key);
  }

  lemma SameCountsAgree(b: Book, c: Book)
    requires CountsAgree(b) && c.auto == b.auto && c.deploying == b.deploying
    ensures CountsAgree(c)
  {
    assert forall k: Key :: Tagged(c, k) == Tagged(b, k) && Deploying(c, k) == Deploying(b, k);
  }

  /** One step keeps the counts right exactly when it is not an effective untagged one. */
  lemma CountsStayRightIff(b: Book, a: Action)
    requires CountsAgree(b)
    ensures CountsAgree(Step(b, a)) <==> !Untagged(b, a)
  {
    var c := Step(b, a);
    if a.Mark? && a.id.None? { UntaggedDisagrees(b, c, a.key); }
    else if a.Mark? && a.id.value !in b.auto { TaggedMoves(b, c, a.key, a.id.value); }
    else if a.Clear? && a.target.OfInstance? { ClearTaggedAgrees(b, a.target.id); }
    else if a.Clear? && Deploying(b, a.target.key) > 0 { UntaggedDisagrees(b, c, a.target.key); }
    else { SameCountsAgree(b, c); }
  }

  /** The counts are right in every state the run passes through. */
  ghost predicate AlwaysAgree(actions: seq<Action>) {
    CountsAgree(Run(actions)) && (actions == [] || AlwaysAgree(actions[..|actions| - 1]))
  }

  ghost predicate NeverUntagged(actions: seq<Action>) {
    actions == [] ||
    (NeverUntagged(actions[..|actions| - 1])
     && !Untagged(Run(actions[..|actions| - 1]), actions[|actions| - 1]))
  }

  /** Over a whole run: the counts are right throughout exactly when no step was an
      effective untagged one. */
  lemma {:induction false} CountsAreRightIff(actions: seq<Action>)
    ensures AlwaysAgree(actions) <==> NeverUntagged(actions)
    decreases |actions|
  {
    if actions == [] {
      assert forall k: Key :: Tagged(EMPTY, k) == {};
    } else {
      var prefix := actions[..|actions| - 1];
      CountsAreRightIff(prefix);
      if AlwaysAgree(prefix) { CountsStayRightIff(Run(prefix), actions[|actions| - 1]); }
    }
  }

  /** A mark without an instance counts a deployment that no instance is tagged for, and
      nothing tagged will ever take back. */
  lemma {:induction false} UntaggedMarkMiscounts(key: Key)
    ensures var b := Run([Mark(key, None)]);
            Deploying(b, key) == 1 && Tagged(b, key) == {} && !CountsAgree(b)
  {
    assert [Mark(key, None)][..0] == [];
    assert Run([Mark(key, None)]) == Step(EMPTY, Mark(key, None));
    assert Tagged(Step(EMPTY, Mark(key, None)), key) == {};
  }

  /** A mark counts one deployment more of its model, once for an instance, and tags the
      instance when there is one. */
  lemma MarkIs(b: Book, key: Key, id: Option<Id>)
    ensures var c := Step(b, Mark(key, id));
            if id.Some? && id.value in b.auto then c == b
            else
              && c == b.(auto := c.auto, deploying := c.deploying)
              && Deploying(c, key) == Deploying(b, key) + 1
              && (forall k: Key :: k != key ==> Deploying(c, k) == Deploying(b, k))
              && c.auto == if id.Some? then b.auto[id.value := key] else b.auto
  {
  }

  /** A clear takes one deployment back from the instance's own model, or the named one, and
      never below zero. */
  lemma ClearIs(b: Book, target: Target)
    ensures var c := Step(b, Clear(target));
            if target.OfInstance? && target.id !in b.auto then c == b
            else
              var key := if target.OfInstance? then b.auto[target.id] else target.key;
              && c == b.(auto := c.auto, deploying := c.deploying)
              && Deploying(c, key) == (if Deploying(b, key) > 0 then Deploying(b, key) - 1 else 0)
              && (forall k: Key :: k != key ==> Deploying(c, k) == Deploying(b, k))
              && c.auto == if target.OfInstance? then b.auto - {target.id} else b.auto
  {
  }
}
