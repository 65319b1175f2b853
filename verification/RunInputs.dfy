/** Workflow inputs that are bound when a run starts: the client encodes them as marked
    dictionaries (maze/client/maze/workflow_authoring.py: `encode_run_inputs`), the
    server finds them and puts the bound values in their place
    (maze/core/path/path.py: `_run_input_ref`, `_resolve_run_input_refs`,
    `_bind_workflow_run_inputs`). */
module RunInputs {
  import opened Options

  /** A task parameter.  Dictionaries keep the order of their entries; `Atom` is any
      other JSON value; `Input` exists only on the client. */
  datatype Value =
    | Atom(code: nat)
    | Flag(truth: bool)
    | Text(text: string)
    | List(items: seq<Value>)
    | Tuple(items: seq<Value>)
    | Dict(entries: seq<Entry>)
    | Input(key: string)

  datatype Entry = Entry(name: string, value: Value)

  const MARKER := "__maze_run_input__"
  const KEY := "key"

  datatype Error = Malformed | Mismatch(key: string)

  datatype Result<T> = Ok(value: T) | Err(error: Error)

  type Inputs = map<string, Value>

  // ----- the client's encoder -----------------------------------------------

  function Reference(key: string): Value {
    Dict([Entry(MARKER, Flag(true)), Entry(KEY, Text(key))])
  }

  /** The encoded value and whether it holds a run input. */
  function Encode(v: Value): (Value, bool) {
    match v
    case Input(key) => (Reference(key), true)
    case Tuple(items) => (List(EncodeItems(items).0), EncodeItems(items).1)
    case List(items) => (List(EncodeItems(items).0), EncodeItems(items).1)
    case Dict(entries) => (Dict(EncodeEntries(entries).0), EncodeEntries(entries).1)
    case _ => (v, false)
  }

  function EncodeItems(vs: seq<Value>): (r: (seq<Value>, bool))
    ensures |r.0| == |vs|
  {
    if vs == [] then ([], false)
    else ([Encode(vs[0]).0] + EncodeItems(vs[1..]).0, Encode(vs[0]).1 || EncodeItems(vs[1..]).1)
  }

  function EncodeEntries(es: seq<Entry>): (r: (seq<Entry>, bool))
    ensures |r.0| == |es|
  {
    if es == [] then ([], false)
    else
      ([Entry(es[0].name, Encode(es[0].value).0)] + EncodeEntries(es[1..]).0,
       Encode(es[0].value).1 || EncodeEntries(es[1..]).1)
  }

  // ----- the server's resolver ----------------------------------------------

  function Find(es: seq<Entry>, key: string): Option<Value> {
    if es == [] then None else if es[0].name == key then Some(es[0].value) else Find(es[1..], key)
  }

  /** No key but these two; a dictionary has no key twice. */
  predicate OnlyReferenceKeys(es: seq<Entry>) {
    |es| == 2 && Find(es, MARKER).Some? && Find(es, KEY).Some?
  }

  /** `_run_input_ref`: no reference, a reference to a name, or a malformed one. */
  function ReferenceOf(v: Value): Result<Option<string>> {
    if !v.Dict? || Find(v.entries, MARKER).None? then Ok(None)
    else if Find(v.entries, MARKER) == Some(Flag(true)) && OnlyReferenceKeys(v.entries)
            && Find(v.entries, KEY).value.Text? && Find(v.entries, KEY).value.text != ""
    then Ok(Some(Find(v.entries, KEY).value.text))
    else Err(Malformed)
  }

  /** `_resolve_run_input_refs`: the resolved value and the names it refers to.  A bound
      value is not looked into. */
  function Resolve(v: Value, inputs: Inputs): Result<(Value, set<string>)> {
    match ReferenceOf(v)
    case Err(e) => Err(e)
    case Ok(Some(key)) => if key in inputs then Ok((inputs[key], {key})) else Err(Mismatch(key))
    case Ok(None) =>
      match v
      case Dict(entries) =>
        (match ResolveEntries(entries, inputs)
         case Err(e) => Err(e)
         case Ok(r) => Ok((Dict(r.0), r.1)))
      case List(items) => ResolveList(items, inputs)
      case Tuple(items) => ResolveList(items, inputs)
      case _ => Ok((v, {}))
  }

  function ResolveList(vs: seq<Value>, inputs: Inputs): Result<(Value, set<string>)>
    decreases vs, 1
  {
    match ResolveItems(vs, inputs)
    case Err(e) => Err(e)
    case Ok(r) => Ok((List(r.0), r.1))
  }

  function ResolveItems(vs: seq<Value>, inputs: Inputs): Result<(seq<Value>, set<string>)>
    decreases vs, 0
  {
    if vs == [] then Ok(([], {}))
    else
      match Resolve(vs[0], inputs)
      case Err(e) => Err(e)
      case Ok(first) =>
        match ResolveItems(vs[1..], inputs)
        case Err(e) => Err(e)
        case Ok(rest) => Ok(([first.0] + rest.0, first.1 + rest.1))
  }

  function ResolveEntries(es: seq<Entry>, inputs: Inputs): Result<(seq<Entry>, set<string>)> {
    if es == [] then Ok(([], {}))
    else
      match Resolve(es[0].value, inputs)
      case Err(e) => Err(e)
      case Ok(first) =>
        match ResolveEntries(es[1..], inputs)
        case Err(e) => Err(e)
        case Ok(rest) => Ok(([Entry(es[0].name, first.0)] + rest.0, first.1 + rest.1))
  }

  // ----- what it should mean ------------------------------------------------

  /** Every run input replaced by its bound value, tuples become lists. */
  function Subst(v: Value, inputs: Inputs): Value {
    match v
    case Input(key) => if key in inputs then inputs[key] else v
    case Tuple(items) => List(SubstItems(items, inputs))
    case List(items) => List(SubstItems(items, inputs))
    case Dict(entries) => Dict(SubstEntries(entries, inputs))
    case _ => v
  }

  function SubstItems(vs: seq<Value>, inputs: Inputs): (r: seq<Value>)
    ensures |r| == |vs|
  {
    if vs == [] then [] else [Subst(vs[0], inputs)] + SubstItems(vs[1..], inputs)
  }

  function SubstEntries(es: seq<Entry>, inputs: Inputs): (r: seq<Entry>)
    ensures |r| == |es|
  {
    if es == [] then [] else [Entry(es[0].name, Subst(es[0].value, inputs))] + SubstEntries(es[1..], inputs)
  }

  /** The run inputs in a value. */
  function Refs(v: Value): set<string> {
    match v
    case Input(key) => {key}
    case Tuple(items) => RefsOfItems(items)
    case List(items) => RefsOfItems(items)
    case Dict(entries) => RefsOfEntries(entries)
    case _ => {}
  }

  function RefsOfItems(vs: seq<Value>): set<string> {
    if vs == [] then {} else Refs(vs[0]) + RefsOfItems(vs[1..])
  }

  function RefsOfEntries(es: seq<Entry>): set<string> {
    if es == [] then {} else Refs(es[0].value) + RefsOfEntries(es[1..])
  }

  /** The first run input, in reading order, that cannot be bound. */
  function FirstBad(v: Value, inputs: Inputs): Option<Error> {
    match v
    case Input(key) => if key == "" then Some(Malformed) else if key in inputs then None else Some(Mismatch(key))
    case Tuple(items) => FirstBadItem(items, inputs)
    case List(items) => FirstBadItem(items, inputs)
    case Dict(entries) => FirstBadEntry(entries, inputs)
    case _ => None
  }

  function FirstBadItem(vs: seq<Value>, inputs: Inputs): Option<Error> {
    if vs == [] then None
    else if FirstBad(vs[0], inputs).Some? then FirstBad(vs[0], inputs)
    else FirstBadItem(vs[1..], inputs)
  }

  function FirstBadEntry(es: seq<Entry>, inputs: Inputs): Option<Error> {
    if es == [] then None
    else if FirstBad(es[0].value, inputs).Some? then FirstBad(es[0].value, inputs)
    else FirstBadEntry(es[1..], inputs)
  }

  /** No dictionary in the value has the marker among its own keys. */
  predicate NoMarkers(v: Value) {
    match v
    case Tuple(items) => forall x <- items :: NoMarkers(x)
    case List(items) => forall x <- items :: NoMarkers(x)
    case Dict(entries) => Find(entries, MARKER).None? && forall e <- entries :: NoMarkers(e.value)
    case _ => true
  }

  function Meaning(v: Value, inputs: Inputs): Result<(Value, set<string>)> {
    match FirstBad(v, inputs)
    case Some(e) => Err(e)
    case None => Ok((Subst(v, inputs), Refs(v)))
  }

  // ----- encode, then resolve, is substitution ------------------------------

  lemma {:induction false} EncodeFlag(v: Value)
    ensures Encode(v).1 <==> Refs(v) != {}
  {
    match v
    case Tuple(items) => EncodeItemsFlag(items);
    case List(items) => EncodeItemsFlag(items);
    case Dict(entries) => EncodeEntriesFlag(entries);
    case _ =>
  }

  lemma {:induction false} EncodeItemsFlag(vs: seq<Value>)
    ensures EncodeItems(vs).1 <==> RefsOfItems(vs) != {}
  {
    if vs != [] {
      EncodeFlag(vs[0]);
      EncodeItemsFlag(vs[1..]);
    }
  }

  lemma {:induction false} EncodeEntriesFlag(es: seq<Entry>)
    ensures EncodeEntries(es).1 <==> RefsOfEntries(es) != {}
  {
    if es != [] {
      EncodeFlag(es[0].value);
      EncodeEntriesFlag(es[1..]);
    }
  }

  lemma {:induction false} EncodeKeepsKeys(es: seq<Entry>, key: string)
    ensures Find(EncodeEntries(es).0, key) == (match Find(es, key) case None => None case Some(x) => Some(Encode(x).0))
  {
    if es != [] { EncodeKeepsKeys(es[1..], key); }
  }

  /** For every value without literal marker keys: resolving its encoding puts the bound
      value for each input, tuples become lists, the names are exactly the inputs in it;
      or it reports the first input that cannot be bound. */
  lemma {:induction false} EncodeThenResolve(v: Value, inputs: Inputs)
    requires NoMarkers(v)
    ensures Resolve(Encode(v).0, inputs) == Meaning(v, inputs)
  {
    match v
    case Input(key) =>
      var es := Reference(key).entries;
      assert es[1..] == [Entry(KEY, Text(key))];
      assert Find(es, MARKER) == Some(Flag(true)) && Find(es, KEY) == Some(Text(key));
    case Tuple(items) => ItemsThenResolve(items, inputs);
    case List(items) => ItemsThenResolve(items, inputs);
    case Dict(entries) =>
      EncodeKeepsKeys(entries, MARKER);
      EntriesThenResolve(entries, inputs);
    case _ =>
  }

  lemma {:induction false} ItemsThenResolve(vs: seq<Value>, inputs: Inputs)
    requires forall x <- vs :: NoMarkers(x)
    ensures ResolveItems(EncodeItems(vs).0, inputs)
            == match FirstBadItem(vs, inputs)
               case Some(e) => Err(e)
               case None => Ok((SubstItems(vs, inputs), RefsOfItems(vs)))
  {
    if vs != [] {
      EncodeThenResolve(vs[0], inputs);
      ItemsThenResolve(vs[1..], inputs);
      var encoded := EncodeItems(vs).0;
      assert encoded[0] == Encode(vs[0]).0 && encoded[1..] == EncodeItems(vs[1..]).0;
    }
  }

  lemma {:induction false} EntriesThenResolve(es: seq<Entry>, inputs: Inputs)
    requires forall e <- es :: NoMarkers(e.value)
    ensures ResolveEntries(EncodeEntries(es).0, inputs)
            == match FirstBadEntry(es, inputs)
               case Some(e) => Err(e)
               case None => Ok((SubstEntries(es, inputs), RefsOfEntries(es)))
  {
    if es != [] {
      EncodeThenResolve(es[0].value, inputs);
      EntriesThenResolve(es[1..], inputs);
      var encoded := EncodeEntries(es).0;
      assert encoded[0] == Entry(es[0].name, Encode(es[0].value).0) && encoded[1..] == EncodeEntries(es[1..]).0;
    }
  }

  /** Nothing is reported exactly when every input has a name and a bound value. */
  lemma {:induction false} NothingBadIff(v: Value, inputs: Inputs)
    ensures FirstBad(v, inputs).None? <==> "" !in Refs(v) && Refs(v) <= inputs.Keys
  {
    match v
    case Tuple(items) => NothingBadItemIff(items, inputs);
    case List(items) => NothingBadItemIff(items, inputs);
    case Dict(entries) => NothingBadEntryIff(entries, inputs);
    case _ =>
  }

  lemma {:induction false} NothingBadItemIff(vs: seq<Value>, inputs: Inputs)
    ensures FirstBadItem(vs, inputs).None? <==> "" !in RefsOfItems(vs) && RefsOfItems(vs) <= inputs.Keys
  {
    if vs != [] {
      NothingBadIff(vs[0], inputs);
      NothingBadItemIff(vs[1..], inputs);
    }
  }

  lemma {:induction false} NothingBadEntryIff(es: seq<Entry>, inputs: Inputs)
    ensures FirstBadEntry(es, inputs).None? <==> "" !in RefsOfEntries(es) && RefsOfEntries(es) <= inputs.Keys
  {
    if es != [] {
      NothingBadIff(es[0].value, inputs);
      NothingBadEntryIff(es[1..], inputs);
    }
  }

  // ----- and exactly for values without the marker --------------------------

  predicate AllAtoms(inputs: Inputs) {
    forall k <- inputs :: inputs[k] == Atom(0)
  }

  /** With plain bound values, a literal marker key is either an error or read as a
      reference, so its dictionary does not come back. */
  lemma {:induction false} MarkerBreaks(v: Value, inputs: Inputs)
    requires !NoMarkers(v) && AllAtoms(inputs)
    ensures Resolve(Encode(v).0, inputs).Ok? ==> Resolve(Encode(v).0, inputs).value.0 != Subst(v, inputs)
  {
    match v
    case Tuple(items) => MarkerBreaksItems(items, inputs);
    case List(items) => MarkerBreaksItems(items, inputs);
    case Dict(entries) =>
      EncodeKeepsKeys(entries, MARKER);
      if Find(entries, MARKER).None? { MarkerBreaksEntries(entries, inputs); }
    case _ =>
  }

  lemma {:induction false} MarkerBreaksItems(vs: seq<Value>, inputs: Inputs)
    requires (exists x <- vs :: !NoMarkers(x)) && AllAtoms(inputs)
    ensures var r := ResolveItems(EncodeItems(vs).0, inputs);
            r.Ok? ==> r.value.0 != SubstItems(vs, inputs)
  {
    var encoded := EncodeItems(vs).0;
    assert encoded[0] == Encode(vs[0]).0 && encoded[1..] == EncodeItems(vs[1..]).0;
    var r := ResolveItems(encoded, inputs);
    if !NoMarkers(vs[0]) {
      MarkerBreaks(vs[0], inputs);
      if r.Ok? { assert r.value.0[0] != SubstItems(vs, inputs)[0]; }
    } else {
      assert exists x <- vs[1..] :: !NoMarkers(x);
      MarkerBreaksItems(vs[1..], inputs);
      if r.Ok? { assert r.value.0[1..] != SubstItems(vs, inputs)[1..]; }
    }
  }

  lemma {:induction false} MarkerBreaksEntries(es: seq<Entry>, inputs: Inputs)
    requires (exists e <- es :: !NoMarkers(e.value)) && AllAtoms(inputs)
    ensures var r := ResolveEntries(EncodeEntries(es).0, inputs);
            r.Ok? ==> r.value.0 != SubstEntries(es, inputs)
  {
    var encoded := EncodeEntries(es).0;
    assert encoded[0] == Entry(es[0].name, Encode(es[0].value).0) && encoded[1..] == EncodeEntries(es[1..]).0;
    var r := ResolveEntries(encoded, inputs);
    if !NoMarkers(es[0].value) {
      MarkerBreaks(es[0].value, inputs);
      if r.Ok? { assert r.value.0[0].value != SubstEntries(es, inputs)[0].value; }
    } else {
      assert exists e <- es[1..] :: !NoMarkers(e.value);
      MarkerBreaksEntries(es[1..], inputs);
      if r.Ok? { assert r.value.0[1..] != SubstEntries(es, inputs)[1..]; }
    }
  }

  /** A run input without a name is an error wherever it stands. */
  lemma {:induction false} EmptyNameFails(v: Value, inputs: Inputs)
    requires "" in Refs(v)
    ensures Resolve(Encode(v).0, inputs).Err?
  {
    match v
    case Input(key) =>
      var es := Reference(key).entries;
      assert es[1..] == [Entry(KEY, Text(key))];
      assert Find(es, MARKER) == Some(Flag(true)) && Find(es, KEY) == Some(Text(key));
    case Tuple(items) => EmptyNameFailsInItems(items, inputs);
    case List(items) => EmptyNameFailsInItems(items, inputs);
    case Dict(entries) =>
      EncodeKeepsKeys(entries, MARKER);
      EncodeKeepsKeys(entries, KEY);
      var r := ReferenceOf(Encode(v).0);
      if r.Ok? && r.value.Some? {
        PlainEntriesHoldNothing(entries);
      } else {
        EmptyNameFailsInEntries(entries, inputs);
      }
    case _ =>
  }

  /** A literal dictionary that reads as a reference holds no run input. */
  lemma PlainEntriesHoldNothing(es: seq<Entry>)
    requires |es| == 2 && Find(es, MARKER).Some? && Find(es, KEY).Some?
    requires !Find(es, MARKER).value.Input? && Encode(Find(es, MARKER).value).0.Flag?
    requires Encode(Find(es, KEY).value).0.Text?
    ensures RefsOfEntries(es) == {}
  {
    var rest := es[1..];
    assert rest[1..] == [] && rest[0] == es[1];
    assert Find(rest[1..], MARKER).None? && Find(rest[1..], KEY).None?;
    assert RefsOfEntries(rest[1..]) == {};
    assert RefsOfEntries(rest) == Refs(es[1].value) + RefsOfEntries(rest[1..]);
    assert RefsOfEntries(es) == Refs(es[0].value) + RefsOfEntries(rest);
  }

  lemma {:induction false} EmptyNameFailsInItems(vs: seq<Value>, inputs: Inputs)
    requires "" in RefsOfItems(vs)
    ensures ResolveItems(EncodeItems(vs).0, inputs).Err?
  {
    var encoded := EncodeItems(vs).0;
    assert encoded[0] == Encode(vs[0]).0 && encoded[1..] == EncodeItems(vs[1..]).0;
    if "" in Refs(vs[0]) { EmptyNameFails(vs[0], inputs); } else { EmptyNameFailsInItems(vs[1..], inputs); }
  }

  lemma {:induction false} EmptyNameFailsInEntries(es: seq<Entry>, inputs: Inputs)
    requires "" in RefsOfEntries(es)
    ensures ResolveEntries(EncodeEntries(es).0, inputs).Err?
  {
    var encoded := EncodeEntries(es).0;
    assert encoded[0] == Entry(es[0].name, Encode(es[0].value).0) && encoded[1..] == EncodeEntries(es[1..]).0;
    if "" in Refs(es[0].value) {
      EmptyNameFails(es[0].value, inputs);
    } else {
      EmptyNameFailsInEntries(es[1..], inputs);
    }
  }

  /** Both bind, to the same value and names, or both fail. */
  predicate BothOrNeither<T(==)>(a: Result<T>, b: Result<T>) {
    if a.Ok? then a == b else b.Err?
  }

  /** Resolving undoes encoding for all bindings exactly when the value has no literal
      marker key, or holds an input without a name and so never binds; in the first case
      the errors are the same too. */
  lemma RoundTripIff(v: Value)
    ensures (forall inputs: Inputs :: BothOrNeither(Resolve(Encode(v).0, inputs), Meaning(v, inputs)))
            <==> NoMarkers(v) || "" in Refs(v)
    ensures NoMarkers(v) ==> forall inputs: Inputs :: Resolve(Encode(v).0, inputs) == Meaning(v, inputs)
  {
    if NoMarkers(v) {
      forall inputs: Inputs ensures Resolve(Encode(v).0, inputs) == Meaning(v, inputs) {
        EncodeThenResolve(v, inputs);
      }
    } else if "" in Refs(v) {
      forall inputs: Inputs ensures BothOrNeither(Resolve(Encode(v).0, inputs), Meaning(v, inputs)) {
        EmptyNameFails(v, inputs);
        NothingBadIff(v, inputs);
      }
    } else {
      var inputs: Inputs := map k <- Refs(v) :: Atom(0);
      NothingBadIff(v, inputs);
      MarkerBreaks(v, inputs);
      assert !BothOrNeither(Resolve(Encode(v).0, inputs), Meaning(v, inputs));
    }
  }

  // ----- binding a workflow's inputs ----------------------------------------

  /** A parameter of a task; only `from_run` ones are looked at. */
  datatype Param = Param(fromRun: bool, value: Value, hasValue: bool)

  /** `required`, else the default. */
  datatype Spec = Required | Optional(fallback: Value)

  /** `workflow_input_contract`; without one both parts are empty. */
  datatype Contract = Contract(constants: set<string>, runtime: map<string, Spec>)

  datatype BindError =
    | Conflicts(keys: set<string>)
    | Unknown(keys: set<string>)
    | Missing(keys: set<string>)
    | BadReference(error: Error)
    | Unreferenced(keys: set<string>)     // referenced names and contract differ

  datatype Bound = Failed(error: BindError) | Bound(effective: Inputs, params: seq<Param>)

  function MissingKeys(contract: Contract, inputs: Inputs): set<string> {
    set k <- contract.runtime | contract.runtime[k].Required? && k !in inputs
  }

  /** The provided value, else the default. */
  function Effective(contract: Contract, inputs: Inputs): Inputs
    requires MissingKeys(contract, inputs) == {}
  {
    map k <- contract.runtime :: if k in inputs then inputs[k]
                                 else assert k !in MissingKeys(contract, inputs); contract.runtime[k].fallback
  }

  /** One parameter: untouched, or resolved in place. */
  function BindParam(p: Param, inputs: Inputs): Result<(Param, set<string>)> {
    if !p.fromRun then Ok((p, {}))
    else
      match Resolve(p.value, inputs)
      case Err(e) => Err(e)
      case Ok(r) => if r.1 == {} then Err(Malformed) else Ok((Param(false, r.0, true), r.1))
  }

  function BindParams(ps: seq<Param>, inputs: Inputs): Result<(seq<Param>, set<string>)> {
    if ps == [] then Ok(([], {}))
    else
      match BindParams(ps[..|ps| - 1], inputs)
      case Err(e) => Err(e)
      case Ok(before) =>
        match BindParam(ps[|ps| - 1], inputs)
        case Err(e) => Err(e)
        case Ok(last) => Ok((before.0 + [last.0], before.1 + last.1))
  }

  /** `_bind_workflow_run_inputs` over the parameters of all tasks. */
  function Bind(contract: Contract, inputs: Inputs, params: seq<Param>): Bound {
    var conflicts := inputs.Keys * contract.constants;
    var unknown := inputs.Keys - contract.constants - contract.runtime.Keys;
    var missing := MissingKeys(contract, inputs);
    if conflicts != {} then Failed(Conflicts(conflicts))
    else if unknown != {} then Failed(Unknown(unknown))
    else if missing != {} then Failed(Missing(missing))
    else
      match BindParams(params, Effective(contract, inputs))
      case Err(e) => Failed(BadReference(e))
      case Ok(r) =>
        var differ := (r.1 - contract.runtime.Keys) + (contract.runtime.Keys - r.1);
        if differ != {} then Failed(Unreferenced(differ)) else Bound(Effective(contract, inputs), r.0)
  }

  /** The names the parameters refer to. */
  function ParamRefs(ps: seq<Param>, inputs: Inputs): set<string> {
    if ps == [] then {}
    else
      ParamRefs(ps[..|ps| - 1], inputs)
      + if BindParam(ps[|ps| - 1], inputs).Ok? then BindParam(ps[|ps| - 1], inputs).value.1 else {}
  }

  lemma {:induction false} BindParamsIs(ps: seq<Param>, inputs: Inputs)
    ensures BindParams(ps, inputs).Ok? <==> forall p <- ps :: BindParam(p, inputs).Ok?
    ensures BindParams(ps, inputs).Ok? ==>
              var r := BindParams(ps, inputs).value;
              && r.1 == ParamRefs(ps, inputs) && |r.0| == |ps|
              && forall i :: 0 <= i < |ps| ==>
                   BindParam(ps[i], inputs).Ok? && r.0[i] == BindParam(ps[i], inputs).value.0
  {
    if ps != [] {
      var front, last := ps[..|ps| - 1], ps[|ps| - 1];
      assert ps == front + [last];
      BindParamsIs(front, inputs);
      hide BindParam;
      assert last in ps && forall p <- front :: p in ps;
      assert forall p <- ps :: p in front || p == last;
    }
  }

  lemma NothingLeftIff(x: set<string>, a: set<string>, b: set<string>)
    ensures x - a - b == {} <==> x <= a + b
  {
    if x - a - b == {} {
      forall k <- x ensures k in a + b {
        assert k in x - a - b || k in a + b;
      }
    }
  }

  lemma DisjointIff(a: set<string>, b: set<string>)
    ensures a * b == {} <==> a !! b
  {
    if a * b == {} {
      forall k <- a ensures k !in b {
        assert k in b ==> k in a * b;
      }
    } else {
      var k :| k in a * b;
    }
  }

  lemma NoDifferenceIff(a: set<string>, b: set<string>)
    ensures (a - b) + (b - a) == {} <==> a == b
  {
    if (a - b) + (b - a) == {} {
      forall k: string ensures k in a <==> k in b {
        assert k in (a - b) + (b - a) || (k in a <==> k in b);
      }
    }
  }

  /** Every runtime input has its provided value, or its default when none was provided. */
  predicate IsEffective(contract: Contract, inputs: Inputs, effective: Inputs) {
    && effective.Keys == contract.runtime.Keys
    && (forall k <- effective :: k in inputs ==> effective[k] == inputs[k])
    && (forall k <- effective :: k !in inputs ==> contract.runtime[k] == Optional(effective[k]))
  }

  /** Everything required is provided. */
  predicate IsComplete(contract: Contract, inputs: Inputs) {
    forall k <- contract.runtime :: contract.runtime[k] == Required ==> k in inputs
  }

  lemma CompleteIff(contract: Contract, inputs: Inputs)
    ensures MissingKeys(contract, inputs) == {} <==> IsComplete(contract, inputs)
  {
    if MissingKeys(contract, inputs) == {} {
      forall k <- contract.runtime | contract.runtime[k] == Required ensures k in inputs {
        assert k !in MissingKeys(contract, inputs);
      }
    }
  }

  lemma EffectiveIs(contract: Contract, inputs: Inputs)
    requires MissingKeys(contract, inputs) == {}
    ensures IsEffective(contract, inputs, Effective(contract, inputs))
  {
    forall k <- contract.runtime | k !in inputs ensures contract.runtime[k].Optional? {
      assert k !in MissingKeys(contract, inputs);
    }
  }

  /** Which error a bind reports: names that override constants before unknown ones, those
      before missing ones, each exactly; then the first reference that cannot be bound, in
      the order of the parameters; then the names on which references and contract differ. */
  lemma BindErrorIs(contract: Contract, inputs: Inputs, params: seq<Param>, k: string)
    ensures var b := Bind(contract, inputs, params);
            && (b.Failed? && b.error.Conflicts? ==>
                  (k in b.error.keys <==> k in inputs && k in contract.constants))
            && (b.Failed? && b.error.Unknown? ==>
                  && inputs.Keys !! contract.constants
                  && (k in b.error.keys <==> k in inputs && k !in contract.constants && k !in contract.runtime))
            && (b.Failed? && b.error.Missing? ==>
                  && inputs.Keys !! contract.constants && inputs.Keys <= contract.constants + contract.runtime.Keys
                  && (k in b.error.keys <==>
                        k in contract.runtime && contract.runtime[k] == Required && k !in inputs))
            && (b.Failed? && b.error.Unreferenced? ==>
                  && IsComplete(contract, inputs)
                  && (k in b.error.keys <==>
                        (k in contract.runtime) != (k in ParamRefs(params, Effective(contract, inputs)))))
  {
    CompleteIff(contract, inputs);
    DisjointIff(inputs.Keys, contract.constants);
    NothingLeftIff(inputs.Keys, contract.constants, contract.runtime.Keys);
    if MissingKeys(contract, inputs) == {} { BindParamsIs(params, Effective(contract, inputs)); }
    hide BindParams, ParamRefs, BindParam, Effective;
  }

  /** What a caller must get right, and nothing else, for a bind to succeed. */
  lemma BindSucceedsIff(contract: Contract, inputs: Inputs, params: seq<Param>)
    ensures Bind(contract, inputs, params).Bound? <==>
              && inputs.Keys !! contract.constants
              && inputs.Keys <= contract.constants + contract.runtime.Keys
              && MissingKeys(contract, inputs) == {}
              && (forall p <- params :: BindParam(p, Effective(contract, inputs)).Ok?)
              && ParamRefs(params, Effective(contract, inputs)) == contract.runtime.Keys
  {
    hide BindParams, ParamRefs, BindParam, Effective;
    NothingLeftIff(inputs.Keys, contract.constants, contract.runtime.Keys);
    DisjointIff(inputs.Keys, contract.constants);
    if MissingKeys(contract, inputs) == {} {
      BindParamsIs(params, Effective(contract, inputs));
      NoDifferenceIff(ParamRefs(params, Effective(contract, inputs)), contract.runtime.Keys);
    }
  }

  /** A successful bind leaves no `from_run` parameter, touches no other one, and the
      names it replaced are exactly the contract. */
  lemma BoundLeavesNoReference(contract: Contract, inputs: Inputs, params: seq<Param>)
    requires Bind(contract, inputs, params).Bound?
    ensures var b := Bind(contract, inputs, params);
            && |b.params| == |params| && b.effective.Keys == contract.runtime.Keys
            && ParamRefs(params, b.effective) == contract.runtime.Keys
            && (forall i :: 0 <= i < |params| ==> !b.params[i].fromRun)
            && (forall i :: 0 <= i < |params| ==> !params[i].fromRun ==> b.params[i] == params[i])
            && IsEffective(contract, inputs, b.effective)
  {
    BindParamsIs(params, Effective(contract, inputs));
    BindSucceedsIff(contract, inputs, params);
    EffectiveIs(contract, inputs);
    hide ParamRefs, BindParams, Resolve, IsEffective;
  }

  // ----- from the client's values to the bound workflow ----------------------

  /** What the client sends for a value it was given. */
  function Sent(v: Value): Param {
    Param(Encode(v).1, Encode(v).0, !Encode(v).1)
  }

  function SentAll(vs: seq<Value>): seq<Param> {
    if vs == [] then [] else SentAll(vs[..|vs| - 1]) + [Sent(vs[|vs| - 1])]
  }

  function RefsOfAll(vs: seq<Value>): set<string> {
    if vs == [] then {} else RefsOfAll(vs[..|vs| - 1]) + Refs(vs[|vs| - 1])
  }

  predicate Authored(v: Value) {
    NoMarkers(v) && "" !in Refs(v)
  }

  /** Encoding a value without inputs only turns its tuples into lists. */
  lemma {:induction false} EncodeIsSubst(v: Value, inputs: Inputs)
    requires Refs(v) == {}
    ensures Encode(v).0 == Subst(v, inputs)
  {
    match v
    case Tuple(items) => EncodeItemsIsSubst(items, inputs);
    case List(items) => EncodeItemsIsSubst(items, inputs);
    case Dict(entries) => EncodeEntriesIsSubst(entries, inputs);
    case _ =>
  }

  lemma {:induction false} EncodeItemsIsSubst(vs: seq<Value>, inputs: Inputs)
    requires RefsOfItems(vs) == {}
    ensures EncodeItems(vs).0 == SubstItems(vs, inputs)
  {
    if vs != [] {
      EncodeIsSubst(vs[0], inputs);
      EncodeItemsIsSubst(vs[1..], inputs);
    }
  }

  lemma {:induction false} EncodeEntriesIsSubst(es: seq<Entry>, inputs: Inputs)
    requires RefsOfEntries(es) == {}
    ensures EncodeEntries(es).0 == SubstEntries(es, inputs)
  {
    if es != [] {
      EncodeIsSubst(es[0].value, inputs);
      EncodeEntriesIsSubst(es[1..], inputs);
    }
  }

  lemma SentBinds(v: Value, inputs: Inputs)
    requires Authored(v)
    ensures BindParam(Sent(v), inputs).Ok? <==> Refs(v) <= inputs.Keys
    ensures Refs(v) <= inputs.Keys ==>
              BindParam(Sent(v), inputs).value == (Param(false, Subst(v, inputs), true), Refs(v))
  {
    EncodeFlag(v);
    EncodeThenResolve(v, inputs);
    NothingBadIff(v, inputs);
    if Refs(v) == {} { EncodeIsSubst(v, inputs); }
    hide Encode, Resolve, Subst, Refs, NoMarkers;
  }

  lemma SnocBinds(ps: seq<Param>, p: Param, inputs: Inputs)
    ensures (forall q <- ps + [p] :: BindParam(q, inputs).Ok?)
            <==> BindParam(p, inputs).Ok? && forall q <- ps :: BindParam(q, inputs).Ok?
    ensures ParamRefs(ps + [p], inputs)
            == ParamRefs(ps, inputs) + if BindParam(p, inputs).Ok? then BindParam(p, inputs).value.1 else {}
  {
    hide BindParam;
    assert (ps + [p])[..|ps|] == ps;
    assert p in ps + [p] && forall q <- ps :: q in ps + [p];
  }

  /** Every parameter is bound to what its value means. */
  predicate BoundTo(ps: seq<Param>, vs: seq<Value>, inputs: Inputs) {
    && |ps| == |vs|
    && forall i :: 0 <= i < |vs| ==>
         BindParam(ps[i], inputs).Ok? && BindParam(ps[i], inputs).value.0 == Param(false, Subst(vs[i], inputs), true)
  }

  lemma BoundToSnoc(ps: seq<Param>, vs: seq<Value>, p: Param, v: Value, inputs: Inputs)
    requires BoundTo(ps, vs, inputs)
    requires BindParam(p, inputs).Ok? && BindParam(p, inputs).value.0 == Param(false, Subst(v, inputs), true)
    ensures BoundTo(ps + [p], vs + [v], inputs)
  {
    hide BindParam, Subst;
  }

  lemma {:induction false} SentAllBind(vs: seq<Value>, inputs: Inputs)
    requires forall v <- vs :: Authored(v)
    ensures |SentAll(vs)| == |vs|
    ensures (forall p <- SentAll(vs) :: BindParam(p, inputs).Ok?) <==> RefsOfAll(vs) <= inputs.Keys
    ensures RefsOfAll(vs) <= inputs.Keys ==>
              ParamRefs(SentAll(vs), inputs) == RefsOfAll(vs) && BoundTo(SentAll(vs), vs, inputs)
  {
    if vs != [] {
      var front, last := vs[..|vs| - 1], vs[|vs| - 1];
      SentAllBind(front, inputs);
      SentBinds(last, inputs);
      var sent, before := SentAll(vs), SentAll(front);
      assert sent == before + [Sent(last)] && sent[..|vs| - 1] == before;
      SnocBinds(before, Sent(last), inputs);
      assert vs == front + [last];
      hide BindParam, Sent, Subst, Refs, Authored, SentAll, BoundTo;
      if RefsOfAll(vs) <= inputs.Keys { BoundToSnoc(before, front, Sent(last), last, inputs); }
    }
  }

  /** End to end: what the author wrote is what the tasks get.  The bind succeeds exactly
      when the caller provides what the contract asks for and the workflow uses every
      runtime input and no other name; then every parameter is the authored value with
      the inputs' values in their places. */
  lemma AuthoredWorkflowIsBound(contract: Contract, inputs: Inputs, vs: seq<Value>)
    requires forall v <- vs :: Authored(v)
    ensures var b := Bind(contract, inputs, SentAll(vs));
            && (b.Bound? <==>
                  && inputs.Keys !! contract.constants
                  && inputs.Keys <= contract.constants + contract.runtime.Keys
                  && IsComplete(contract, inputs)
                  && RefsOfAll(vs) == contract.runtime.Keys)
            && (b.Bound? ==>
                  && IsEffective(contract, inputs, b.effective)
                  && |b.params| == |vs|
                  && forall i :: 0 <= i < |vs| ==> b.params[i] == Param(false, Subst(vs[i], b.effective), true))
  {
    BindSucceedsIff(contract, inputs, SentAll(vs));
    CompleteIff(contract, inputs);
    if MissingKeys(contract, inputs) == {} {
      var effective := Effective(contract, inputs);
      assert effective.Keys == contract.runtime.Keys;
      EffectiveIs(contract, inputs);
      SentAllBind(vs, effective);
      BindParamsIs(SentAll(vs), effective);
    }
    hide BindParams, BindParam, SentAll, ParamRefs, RefsOfAll, Subst, Effective, IsEffective, IsComplete;
  }

  // ----- the bind in place --------------------------------------------------

  /** Parameters are replaced where they are.  The workflow is the submission's own copy,
      so what an error leaves half done is thrown away. */
  method BindWorkflowRunInputs(contract: Contract, inputs: Inputs, params: array<Param>) returns (bound: Bound)
    modifies params
    ensures bound == Bind(contract, inputs, old(params[..]))
    ensures bound.Bound? ==> params[..] == bound.params
  {
    var conflicts := inputs.Keys * contract.constants;
    if conflicts != {} { return Failed(Conflicts(conflicts)); }
    var unknown := inputs.Keys - contract.constants - contract.runtime.Keys;
    if unknown != {} { return Failed(Unknown(unknown)); }
    var missing := MissingKeys(contract, inputs);
    if missing != {} { return Failed(Missing(missing)); }
    var effective := Effective(contract, inputs);
    var referenced: set<string> := {};
    ghost var was := params[..];
    var i := 0;
    while i < params.Length
      invariant 0 <= i <= params.Length
      invariant forall j :: i <= j < params.Length ==> params[j] == was[j]
      invariant BindParams(was[..i], effective) == Ok((params[..i], referenced))
    {
      var p := params[i];
      ghost var done := params[..i];
      assert p == was[i] && was[..i + 1][..i] == was[..i];
      assert referenced + {} == referenced;
      if p.fromRun {
        var r := Resolve(p.value, effective);
        if r.Err? || r.value.1 == {} {
          BindFailsFrom(was, effective, i);
          return Failed(BadReference(if r.Err? then r.error else Malformed));
        }
        referenced := referenced + r.value.1;
        params[i] := Param(false, r.value.0, true);
      }
      assert was[..i + 1] == was[..i] + [p] && params[..i + 1] == done + [params[i]];
      i := i + 1;
    }
    assert was[..i] == was;
    var mismatched := (referenced - contract.runtime.Keys) + (contract.runtime.Keys - referenced);
    if mismatched != {} { return Failed(Unreferenced(mismatched)); }
    return Bound(effective, params[..]);
  }

  /** The first failing parameter decides the error. */
  lemma {:induction false} BindFailsFrom(ps: seq<Param>, inputs: Inputs, i: nat)
    requires i < |ps| && BindParams(ps[..i], inputs).Ok? && BindParam(ps[i], inputs).Err?
    ensures BindParams(ps, inputs) == Err(BindParam(ps[i], inputs).error)
    decreases |ps|
  {
    hide BindParam;
    if i < |ps| - 1 {
      assert ps[..|ps| - 1][..i] == ps[..i];
      BindFailsFrom(ps[..|ps| - 1], inputs, i);
    } else {
      assert ps[..|ps| - 1] == ps[..i];
    }
  }
}
