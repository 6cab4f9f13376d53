/** Values at the protocol boundary are arbitrary object graphs, possibly shared and cyclic. Three
    depth-first traversals with a mutable set of ancestors are related to what they mean on the graph. */
module ValueGraph {

  import opened Wrappers

  type Ref = nat

  datatype Number = Finite(value: real) | NonFinite(text: string)

  datatype Value =
    | Undefined | Null | Boolean(b: bool) | Num(n: Number) | Text(s: string)
    | BigInt(i: int) | Callable | Symbol
    | Object(ref: Ref)

  /** An array slot may be a hole: `every` skips it, `Array.from` reads it as undefined. */
  datatype Slot = Hole | Item(value: Value)

  datatype Prototype = ObjectPrototype | NullPrototype | OtherPrototype

  /** `entries` are the own enumerable properties in enumeration order; a date without ISO text is invalid. */
  datatype Node =
    | Array(items: seq<Slot>)
    | Record(prototype: Prototype, entries: seq<(string, Value)>)
    | Date(iso: Option<string>)

  type Heap = map<Ref, Node>

  ghost predicate InHeap(h: Heap, v: Value) { v.Object? ==> v.ref in h }

  // ---------------------------------------------------------------------------------------------
  // What acceptance means on the graph
  // ---------------------------------------------------------------------------------------------

  /** `Wire` is the predicate guarding every message; `Json` the copying conversion of the server. */
  datatype Policy = Wire | Json

  predicate LeafAllowed(p: Policy, v: Value, optional: bool)
    requires !v.Object?
  {
    match v
    case Undefined => p == Wire && optional
    case Null | Boolean(_) | Text(_) => true
    case Num(n) => p == Wire || n.Finite?
    case _ => false
  }

  predicate KindAllowed(p: Policy, node: Node) {
    match node
    case Array(_) => true
    case Record(prototype, _) => prototype == ObjectPrototype || (prototype == NullPrototype && p == Json)
    case Date(_) => false
  }

  /** The values inside an object, each with whether it may be absent. */
  function Kids(node: Node): (kids: seq<(Value, bool)>) {
    match node
    case Array(items) =>
      seq(|items|, i requires 0 <= i < |items| =>
        match items[i] case Hole => (Undefined, true) case Item(v) => (v, false))
    case Record(_, entries) => seq(|entries|, i requires 0 <= i < |entries| => (entries[i].1, true))
    case Date(_) => []
  }

  ghost predicate KidsInHeap(h: Heap, node: Node) {
    forall k :: 0 <= k < |Kids(node)| ==> InHeap(h, Kids(node)[k].0)
  }

  /** Every reference leads to an object of the graph. */
  ghost predicate WellFormed(h: Heap) {
    forall r :: r in h ==> KidsInHeap(h, h[r])
  }

  /** A walk along references. */
  ghost predicate IsPath(h: Heap, path: seq<Ref>) {
    && path != []
    && (forall i :: 0 <= i < |path| ==> path[i] in h)
    && (forall i {:trigger path[i]} :: 0 <= i < |path| - 1 ==> Reaches(h[path[i]], path[i + 1]))
  }

  ghost predicate Reaches(node: Node, r: Ref) {
    exists k :: 0 <= k < |Kids(node)| && Kids(node)[k].0 == Object(r)
  }

  ghost predicate Distinct(path: seq<Ref>) {
    forall i, j :: 0 <= i < j < |path| ==> path[i] != path[j]
  }

  ghost predicate Avoids(path: seq<Ref>, s: set<Ref>) {
    forall i :: 0 <= i < |path| ==> path[i] !in s
  }

  /** The object itself is of an allowed kind and its primitive contents are allowed. */
  ghost predicate NodeAllowed(p: Policy, node: Node) {
    && KindAllowed(p, node)
    && forall k :: 0 <= k < |Kids(node)| && !Kids(node)[k].0.Object? ==> LeafAllowed(p, Kids(node)[k].0, Kids(node)[k].1)
  }

  /** No walk from the value revisits an object, touches `avoid`, or meets something disallowed. */
  ghost predicate AllowedAvoiding(p: Policy, h: Heap, v: Value, optional: bool, avoid: set<Ref>) {
    if !v.Object? then LeafAllowed(p, v, optional)
    else forall path :: IsPath(h, path) && path[0] == v.ref ==>
           Distinct(path) && Avoids(path, avoid) && NodeAllowed(p, h[path[|path| - 1]])
  }

  /** Acceptance: no reachable cycle, only allowed objects and leaves reachable. */
  ghost predicate Allowed(p: Policy, h: Heap, v: Value, optional: bool) {
    AllowedAvoiding(p, h, v, optional, {})
  }

  // ---------------------------------------------------------------------------------------------
  // The depth-first search
  // ---------------------------------------------------------------------------------------------

  ghost predicate Search(p: Policy, h: Heap, v: Value, optional: bool, ancestors: set<Ref>)
    requires WellFormed(h) && InHeap(h, v)
    decreases h.Keys - ancestors
  {
    if !v.Object? then LeafAllowed(p, v, optional)
    else if v.ref in ancestors then false
    else
      && KindAllowed(p, h[v.ref])
      && forall k :: 0 <= k < |Kids(h[v.ref])| ==>
           Search(p, h, Kids(h[v.ref])[k].0, Kids(h[v.ref])[k].1, ancestors + {v.ref})
  }

  lemma PathCons(h: Heap, r: Ref, path: seq<Ref>)
    requires r in h && IsPath(h, path) && Reaches(h[r], path[0])
    ensures IsPath(h, [r] + path)
  {
    var q := [r] + path;
    assert q[0] == r && forall i :: 0 <= i < |path| ==> q[i + 1] == path[i];
    forall i | 0 <= i < |q| - 1
      ensures Reaches(h[q[i]], q[i + 1])
    {
      assert q[i + 1] == path[i];
      if i > 0 {
        assert q[i] == path[i - 1] && Reaches(h[path[i - 1]], path[i]);
      }
    }
  }

  lemma PathTail(h: Heap, path: seq<Ref>)
    requires IsPath(h, path) && |path| > 1
    ensures IsPath(h, path[1..]) && Reaches(h[path[0]], path[1])
  {
    assert forall i :: 0 <= i < |path| - 2 ==> path[1..][i] == path[i + 1];
  }

  /** The search with any set of ancestors decides acceptance while avoiding them. */
  lemma {:induction false} SearchDecides(p: Policy, h: Heap, v: Value, optional: bool, ancestors: set<Ref>)
    requires WellFormed(h) && InHeap(h, v)
    ensures Search(p, h, v, optional, ancestors) <==> AllowedAvoiding(p, h, v, optional, ancestors)
    decreases h.Keys - ancestors
  {
    if !v.Object? { return; }
    var r := v.ref;
    assert IsPath(h, [r]);
    if r in ancestors {
      assert [r][0] in ancestors;
      return;
    }
    var kids := Kids(h[r]);
    forall k | 0 <= k < |kids|
      ensures Search(p, h, kids[k].0, kids[k].1, ancestors + {r})
              <==> AllowedAvoiding(p, h, kids[k].0, kids[k].1, ancestors + {r})
    {
      SearchDecides(p, h, kids[k].0, kids[k].1, ancestors + {r});
    }
    if Search(p, h, v, optional, ancestors) {
      AcceptedBelow(p, h, r, ancestors);
    }
    if AllowedAvoiding(p, h, v, optional, ancestors) {
      assert NodeAllowed(p, h[r]);
      AcceptedAbove(p, h, r, ancestors);
    }
  }

  lemma AcceptedBelow(p: Policy, h: Heap, r: Ref, ancestors: set<Ref>)
    requires r in h && r !in ancestors && KindAllowed(p, h[r])
    requires forall k :: 0 <= k < |Kids(h[r])| ==>
               AllowedAvoiding(p, h, Kids(h[r])[k].0, Kids(h[r])[k].1, ancestors + {r})
    ensures AllowedAvoiding(p, h, Object(r), false, ancestors)
  {
    var kids := Kids(h[r]);
    forall path | IsPath(h, path) && path[0] == r
      ensures Distinct(path) && Avoids(path, ancestors) && NodeAllowed(p, h[path[|path| - 1]])
    {
      if |path| > 1 {
        PathTail(h, path);
        var k :| 0 <= k < |kids| && kids[k].0 == Object(path[1]);
        var tail := path[1..];
        assert AllowedAvoiding(p, h, kids[k].0, kids[k].1, ancestors + {r});
        assert Distinct(tail) && Avoids(tail, ancestors + {r});
        assert forall i :: 1 <= i < |path| ==> path[i] == tail[i - 1];
      }
    }
  }

  lemma AcceptedAbove(p: Policy, h: Heap, r: Ref, ancestors: set<Ref>)
    requires r in h && AllowedAvoiding(p, h, Object(r), false, ancestors) && NodeAllowed(p, h[r])
    ensures forall k :: 0 <= k < |Kids(h[r])| ==>
              AllowedAvoiding(p, h, Kids(h[r])[k].0, Kids(h[r])[k].1, ancestors + {r})
  {
    var kids := Kids(h[r]);
    forall k | 0 <= k < |kids| && kids[k].0.Object?
      ensures AllowedAvoiding(p, h, kids[k].0, kids[k].1, ancestors + {r})
    {
      forall path | IsPath(h, path) && path[0] == kids[k].0.ref
        ensures Distinct(path) && Avoids(path, ancestors + {r}) && NodeAllowed(p, h[path[|path| - 1]])
      {
        PathCons(h, r, path);
        var q := [r] + path;
        assert Distinct(q) && Avoids(q, ancestors);
        assert forall i :: 0 <= i < |path| ==> path[i] == q[i + 1];
      }
    }
  }

  /** The mutable set threaded through a traversal. */
  class ObjectSet {
    var members: set<Ref>

    constructor ()
      ensures members == {}
    {
      members := {};
    }
  }

  /** Whether a value can travel: adds the object to its ancestors, searches below it, and always takes
      it out again. */
  method IsProtocolValue(h: Heap, v: Value, optional: bool, ancestors: ObjectSet) returns (r: bool)
    requires WellFormed(h) && InHeap(h, v)
    modifies ancestors
    ensures ancestors.members == old(ancestors.members)
    ensures r <==> AllowedAvoiding(Wire, h, v, optional, old(ancestors.members))
    decreases h.Keys - ancestors.members, 0
  {
    SearchDecides(Wire, h, v, optional, ancestors.members);
    match v
    case Undefined => r := optional;
    case Null | Boolean(_) | Num(_) | Text(_) => r := true;
    case BigInt(_) | Callable | Symbol => r := false;
    case Object(ref) =>
      if ref in ancestors.members {
        return false;
      }
      ghost var before := ancestors.members;
      ancestors.members := ancestors.members + {ref};
      if KindAllowed(Wire, h[ref]) {
        r := EveryKid(h, ref, ancestors);
      } else {
        r := false;
      }
      ancestors.members := ancestors.members - {ref};
      assert ancestors.members == before;
  }

  /** `every` over the items of an array or the property values of an object. */
  method EveryKid(h: Heap, ref: Ref, ancestors: ObjectSet) returns (r: bool)
    requires WellFormed(h) && ref in h
    modifies ancestors
    ensures ancestors.members == old(ancestors.members)
    ensures r <==> forall k :: 0 <= k < |Kids(h[ref])| ==>
                     Search(Wire, h, Kids(h[ref])[k].0, Kids(h[ref])[k].1, old(ancestors.members))
    decreases h.Keys - ancestors.members, 1
  {
    var kids := Kids(h[ref]);
    for i := 0 to |kids|
      invariant ancestors.members == old(ancestors.members)
      invariant forall k :: 0 <= k < i ==> Search(Wire, h, kids[k].0, kids[k].1, ancestors.members)
    {
      var item := IsProtocolValue(h, kids[i].0, kids[i].1, ancestors);
      SearchDecides(Wire, h, kids[i].0, kids[i].1, ancestors.members);
      if !item {
        return false;
      }
    }
    r := true;
  }

  /** With no ancestors the guard accepts exactly the acyclic values with allowed contents. */
  method IsProtocolMessage(h: Heap, v: Value) returns (r: bool)
    requires WellFormed(h) && InHeap(h, v)
    ensures r <==> Allowed(Wire, h, v, false)
  {
    var ancestors := new ObjectSet();
    r := IsProtocolValue(h, v, false, ancestors);
  }

  // ---------------------------------------------------------------------------------------------
  // Copying into JSON
  // ---------------------------------------------------------------------------------------------

  /** A copied value. Assigning the property `__proto__` of a fresh object sets its prototype (when the
      value is an object or null) instead of creating a property. */
  datatype JsonValue =
    | JNull | JBoolean(b: bool) | JNumber(value: real) | JText(s: string)
    | JArray(items: seq<JsonValue>)
    | JObject(entries: seq<(string, JsonValue)>, prototype: Option<JsonValue>)

  const PROTO := "__proto__"

  /** `result[key] = value` on an object that has no property of that name yet. */
  function Assign(entries: seq<(string, JsonValue)>, prototype: Option<JsonValue>, key: string, value: JsonValue)
    : (seq<(string, JsonValue)>, Option<JsonValue>)
  {
    if key != PROTO then (entries + [(key, value)], prototype)
    else if value.JNull? || value.JArray? || value.JObject? then (entries, Some(value))
    else (entries, prototype)
  }

  function AssignAll(keys: seq<string>, values: seq<JsonValue>): (seq<(string, JsonValue)>, Option<JsonValue>)
    requires |keys| == |values|
  {
    if keys == [] then ([], None)
    else
      var n := |keys| - 1;
      var (entries, prototype) := AssignAll(keys[..n], values[..n]);
      Assign(entries, prototype, keys[n], values[n])
  }

  function Keys(entries: seq<(string, Value)>): (keys: seq<string>)
    ensures |keys| == |entries|
  {
    seq(|entries|, i requires 0 <= i < |entries| => entries[i].0)
  }

  /** The copy made by the conversion, or `Err` where it throws. */
  ghost function Copy(h: Heap, v: Value, ancestors: set<Ref>): Result<JsonValue, ()>
    requires WellFormed(h) && InHeap(h, v)
    decreases h.Keys - ancestors, 0
  {
    match v
    case Null => Ok(JNull)
    case Boolean(b) => Ok(JBoolean(b))
    case Num(n) => if n.Finite? then Ok(JNumber(n.value)) else Err(())
    case Text(s) => Ok(JText(s))
    case Undefined | BigInt(_) | Callable | Symbol => Err(())
    case Object(r) =>
      if r in ancestors || !KindAllowed(Json, h[r]) then Err(())
      else
        var kids := CopyKids(h, r, |Kids(h[r])|, ancestors);
        if kids.Err? then Err(())
        else if h[r].Array? then Ok(JArray(kids.value))
        else
          var (entries, prototype) := AssignAll(Keys(h[r].entries), kids.value);
          Ok(JObject(entries, prototype))
  }

  /** The copies of the first `n` values inside an object. */
  ghost function CopyKids(h: Heap, r: Ref, n: nat, ancestors: set<Ref>): (c: Result<seq<JsonValue>, ()>)
    requires WellFormed(h) && r in h && r !in ancestors && n <= |Kids(h[r])|
    ensures c.Ok? ==> |c.value| == n
    decreases h.Keys - (ancestors + {r}), 1, n
  {
    if n == 0 then Ok([])
    else
      var init := CopyKids(h, r, n - 1, ancestors);
      var last := Copy(h, Kids(h[r])[n - 1].0, ancestors + {r});
      if init.Ok? && last.Ok? then Ok(init.value + [last.value]) else Err(())
  }

  lemma {:induction false} CopyKidsIff(h: Heap, r: Ref, n: nat, ancestors: set<Ref>)
    requires WellFormed(h) && r in h && r !in ancestors && n <= |Kids(h[r])|
    ensures var c := CopyKids(h, r, n, ancestors);
            && (c.Ok? <==> forall k :: 0 <= k < n ==> Copy(h, Kids(h[r])[k].0, ancestors + {r}).Ok?)
            && (c.Ok? ==> forall k :: 0 <= k < n ==> Copy(h, Kids(h[r])[k].0, ancestors + {r}) == Ok(c.value[k]))
  {
    if n > 0 { CopyKidsIff(h, r, n - 1, ancestors); }
  }

  /** The conversion throws exactly on cyclic or disallowed values. */
  lemma {:induction false} CopyDecides(h: Heap, v: Value, optional: bool, ancestors: set<Ref>)
    requires WellFormed(h) && InHeap(h, v)
    ensures Copy(h, v, ancestors).Ok? <==> Search(Json, h, v, optional, ancestors)
    decreases h.Keys - ancestors
  {
    if v.Object? && v.ref !in ancestors {
      var kids := Kids(h[v.ref]);
      CopyKidsIff(h, v.ref, |kids|, ancestors);
      forall k | 0 <= k < |kids|
        ensures Copy(h, kids[k].0, ancestors + {v.ref}).Ok?
                <==> Search(Json, h, kids[k].0, kids[k].1, ancestors + {v.ref})
      {
        CopyDecides(h, kids[k].0, kids[k].1, ancestors + {v.ref});
      }
    }
  }

  /** A tree has the same unfolding as a value of the graph. */
  ghost predicate Represents(j: JsonValue, h: Heap, v: Value)
    requires WellFormed(h) && InHeap(h, v)
  {
    match j
    case JNull => v == Null
    case JBoolean(b) => v == Boolean(b)
    case JNumber(x) => v == Num(Finite(x))
    case JText(s) => v == Text(s)
    case JArray(js) =>
      && v.Object? && h[v.ref].Array? && |js| == |Kids(h[v.ref])|
      && forall k :: 0 <= k < |js| ==> Represents(js[k], h, Kids(h[v.ref])[k].0)
    case JObject(es, prototype) =>
      && v.Object? && h[v.ref].Record? && |es| == |h[v.ref].entries| == |Kids(h[v.ref])| && prototype.None?
      && forall k :: 0 <= k < |es| ==>
           es[k].0 == h[v.ref].entries[k].0 && Represents(es[k].1, h, Kids(h[v.ref])[k].0)
  }

  ghost predicate HasProtoKey(node: Node) {
    node.Record? && exists k :: 0 <= k < |node.entries| && node.entries[k].0 == PROTO
  }

  /** No object reachable from the value has an own property named `__proto__`. */
  ghost predicate NoProtoKeys(h: Heap, v: Value) {
    v.Object? ==> forall path :: IsPath(h, path) && path[0] == v.ref ==> !HasProtoKey(h[path[|path| - 1]])
  }

  lemma {:induction false} AssignAllKeeps(keys: seq<string>, values: seq<JsonValue>)
    requires |keys| == |values|
    ensures |AssignAll(keys, values).0| <= |keys|
    ensures PROTO in keys ==> |AssignAll(keys, values).0| < |keys|
    ensures PROTO !in keys ==>
              && AssignAll(keys, values).1.None?
              && |AssignAll(keys, values).0| == |keys|
              && forall k :: 0 <= k < |keys| ==> AssignAll(keys, values).0[k] == (keys[k], values[k])
  {
    if keys != [] {
      AssignAllKeeps(keys[..|keys| - 1], values[..|keys| - 1]);
    }
  }

  lemma NoProtoKeysBelow(h: Heap, r: Ref)
    requires WellFormed(h) && r in h
    ensures NoProtoKeys(h, Object(r)) <==>
              !HasProtoKey(h[r]) && forall k :: 0 <= k < |Kids(h[r])| ==> NoProtoKeys(h, Kids(h[r])[k].0)
  {
    var kids := Kids(h[r]);
    assert IsPath(h, [r]);
    if NoProtoKeys(h, Object(r)) {
      assert !HasProtoKey(h[[r][0]]);
      forall k | 0 <= k < |kids| && kids[k].0.Object?
        ensures NoProtoKeys(h, kids[k].0)
      {
        forall path | IsPath(h, path) && path[0] == kids[k].0.ref
          ensures !HasProtoKey(h[path[|path| - 1]])
        {
          PathCons(h, r, path);
          assert ([r] + path)[|path|] == path[|path| - 1];
        }
      }
    }
    if !HasProtoKey(h[r]) && forall k :: 0 <= k < |kids| ==> NoProtoKeys(h, kids[k].0) {
      forall path | IsPath(h, path) && path[0] == r
        ensures !HasProtoKey(h[path[|path| - 1]])
      {
        if |path| > 1 {
          PathTail(h, path);
          assert path[1..][|path| - 2] == path[|path| - 1];
        }
      }
    }
  }

  /** A successful copy has the same unfolding as the value exactly when no reachable object has a
      property named `__proto__`; such a property is silently lost. */
  lemma {:induction false} CopyIsFaithful(h: Heap, v: Value, ancestors: set<Ref>)
    requires WellFormed(h) && InHeap(h, v) && Copy(h, v, ancestors).Ok?
    ensures Represents(Copy(h, v, ancestors).value, h, v) <==> NoProtoKeys(h, v)
    decreases h.Keys - ancestors
  {
    if !v.Object? { return; }
    var r := v.ref;
    var kids := Kids(h[r]);
    var copies := CopyKids(h, r, |kids|, ancestors).value;
    CopyKidsIff(h, r, |kids|, ancestors);
    forall k | 0 <= k < |kids|
      ensures Represents(copies[k], h, kids[k].0) <==> NoProtoKeys(h, kids[k].0)
    {
      CopyIsFaithful(h, kids[k].0, ancestors + {r});
    }
    NoProtoKeysBelow(h, r);
    if h[r].Array? {
      ArrayFaithful(h, r, copies);
    } else {
      RecordFaithful(h, r, copies);
    }
  }

  lemma ArrayFaithful(h: Heap, r: Ref, copies: seq<JsonValue>)
    requires WellFormed(h) && r in h && h[r].Array? && |copies| == |Kids(h[r])|
    ensures Represents(JArray(copies), h, Object(r))
            <==> forall k :: 0 <= k < |copies| ==> Represents(copies[k], h, Kids(h[r])[k].0)
  {
  }

  lemma RecordFaithful(h: Heap, r: Ref, copies: seq<JsonValue>)
    requires WellFormed(h) && r in h && h[r].Record? && |copies| == |Kids(h[r])|
    ensures var (entries, prototype) := AssignAll(Keys(h[r].entries), copies);
            Represents(JObject(entries, prototype), h, Object(r))
            <==> !HasProtoKey(h[r]) && forall k :: 0 <= k < |copies| ==> Represents(copies[k], h, Kids(h[r])[k].0)
  {
    var keys := Keys(h[r].entries);
    AssignAllKeeps(keys, copies);
    if PROTO in keys {
      var k :| 0 <= k < |keys| && keys[k] == PROTO;
      assert h[r].entries[k].0 == PROTO;
    }
    if HasProtoKey(h[r]) {
      var k :| 0 <= k < |keys| && h[r].entries[k].0 == PROTO;
      assert keys[k] == PROTO;
    }
  }

  /** The copying conversion: fails exactly on cyclic or disallowed values, restoring its set either way,
      and a returned tree unfolds like the value exactly when no `__proto__` property is reachable. */
  method ToProtocolJsonValue(h: Heap, v: Value, seen: ObjectSet) returns (r: Result<JsonValue, ()>)
    requires WellFormed(h) && InHeap(h, v)
    modifies seen
    ensures seen.members == old(seen.members)
    ensures r == Copy(h, v, old(seen.members))
    ensures r.Ok? <==> AllowedAvoiding(Json, h, v, true, old(seen.members))
    ensures r.Ok? ==> (Represents(r.value, h, v) <==> NoProtoKeys(h, v))
    decreases h.Keys - seen.members, 0
  {
    CopyMeaning(h, v, seen.members);
    match v
    case Null => r := Ok(JNull);
    case Boolean(b) => r := Ok(JBoolean(b));
    case Text(s) => r := Ok(JText(s));
    case Num(n) => r := if n.Finite? then Ok(JNumber(n.value)) else Err(());
    case Undefined | BigInt(_) | Callable | Symbol => r := Err(());
    case Object(ref) =>
      if ref in seen.members || !KindAllowed(Json, h[ref]) {
        return Err(());
      }
      ghost var before := seen.members;
      seen.members := seen.members + {ref};
      var copies := CopyEveryKid(h, ref, before, seen);
      seen.members := seen.members - {ref};
      assert seen.members == before;
      if copies.Err? {
        r := Err(());
      } else if h[ref].Array? {
        r := Ok(JArray(copies.value));
      } else {
        var (entries, prototype) := AssignAll(Keys(h[ref].entries), copies.value);
        r := Ok(JObject(entries, prototype));
      }
  }

  method CopyEveryKid(h: Heap, ref: Ref, ghost before: set<Ref>, seen: ObjectSet)
    returns (r: Result<seq<JsonValue>, ()>)
    requires WellFormed(h) && ref in h && ref !in before && seen.members == before + {ref}
    modifies seen
    ensures seen.members == old(seen.members)
    ensures r == CopyKids(h, ref, |Kids(h[ref])|, before)
    decreases h.Keys - seen.members, 1
  {
    var copies: seq<JsonValue> := [];
    var kids := Kids(h[ref]);
    for i := 0 to |kids|
      invariant seen.members == before + {ref} && CopyKids(h, ref, i, before) == Ok(copies)
    {
      var copy := ToProtocolJsonValue(h, kids[i].0, seen);
      if copy.Err? {
        CopyKidsIff(h, ref, |kids|, before);
        return Err(());
      }
      copies := copies + [copy.value];
    }
    r := Ok(copies);
  }

  lemma CopyMeaning(h: Heap, v: Value, ancestors: set<Ref>)
    requires WellFormed(h) && InHeap(h, v)
    ensures Copy(h, v, ancestors).Ok? <==> AllowedAvoiding(Json, h, v, true, ancestors)
    ensures Copy(h, v, ancestors).Ok? ==> (Represents(Copy(h, v, ancestors).value, h, v) <==> NoProtoKeys(h, v))
  {
    CopyDecides(h, v, true, ancestors);
    SearchDecides(Json, h, v, true, ancestors);
    if Copy(h, v, ancestors).Ok? {
      CopyIsFaithful(h, v, ancestors);
    }
  }

  /** A value that loses a property when copied. */
  lemma ProtoKeyIsLost()
    ensures var h: Heap := map[0 := Record(ObjectPrototype, [(PROTO, Boolean(true))])];
            && WellFormed(h) && Allowed(Json, h, Object(0), false)
            && Copy(h, Object(0), {}) == Ok(JObject([], None))
            && !Represents(JObject([], None), h, Object(0))
  {
    var h: Heap := map[0 := Record(ObjectPrototype, [(PROTO, Boolean(true))])];
    assert Kids(h[0]) == [(Boolean(true), true)];
    assert CopyKids(h, 0, 0, {}) == Ok([]);
    assert Copy(h, Boolean(true), {} + {0}) == Ok(JBoolean(true));
    assert CopyKids(h, 0, 1, {}) == Ok([] + [JBoolean(true)]);
    assert Keys(h[0].entries) == [PROTO];
    assert AssignAll([PROTO][..0], [JBoolean(true)][..0]) == ([], None);
    CopyDecides(h, Object(0), false, {});
    SearchDecides(Json, h, Object(0), false, {});
  }

  // ---------------------------------------------------------------------------------------------
  // Lossy sanitizing
  // ---------------------------------------------------------------------------------------------

  const CIRCULAR := JText("[Circular]")

  /** What sanitizing returns: `Ok(None)` for undefined, `Err` where formatting an invalid date throws. */
  ghost function Sanitize(h: Heap, v: Value, ancestors: set<Ref>, digits: int -> string): Result<Option<JsonValue>, ()>
    requires WellFormed(h) && InHeap(h, v)
    decreases h.Keys - ancestors, 0
  {
    match v
    case Null => Ok(Some(JNull))
    case Boolean(b) => Ok(Some(JBoolean(b)))
    case Text(s) => Ok(Some(JText(s)))
    case Num(Finite(x)) => Ok(Some(JNumber(x)))
    case Num(NonFinite(text)) => Ok(Some(JText(text)))
    case BigInt(i) => Ok(Some(JText(digits(i))))
    case Undefined | Callable | Symbol => Ok(None)
    case Object(r) =>
      if h[r].Date? then
        if h[r].iso.Some? then Ok(Some(JText(h[r].iso.value))) else Err(())
      else if r in ancestors then Ok(Some(CIRCULAR))
      else
        var kids := SanitizeKids(h, r, |Kids(h[r])|, ancestors, digits);
        if kids.Err? then Err(())
        else if h[r].Array? then Ok(Some(JArray(NullForMissing(kids.value))))
        else
          var (keys, values) := Present(Keys(h[r].entries), kids.value);
          var (entries, prototype) := AssignAll(keys, values);
          Ok(Some(JObject(entries, prototype)))
  }

  ghost function SanitizeKids(h: Heap, r: Ref, n: nat, ancestors: set<Ref>, digits: int -> string)
    : (c: Result<seq<Option<JsonValue>>, ()>)
    requires WellFormed(h) && r in h && r !in ancestors && n <= |Kids(h[r])|
    ensures c.Ok? ==> |c.value| == n
    decreases h.Keys - (ancestors + {r}), 1, n
  {
    if n == 0 then Ok([])
    else
      var init := SanitizeKids(h, r, n - 1, ancestors, digits);
      var last := Sanitize(h, Kids(h[r])[n - 1].0, ancestors + {r}, digits);
      if init.Ok? && last.Ok? then Ok(init.value + [last.value]) else Err(())
  }

  /** Arrays replace what has no JSON form by null. */
  function NullForMissing(items: seq<Option<JsonValue>>): (r: seq<JsonValue>)
    ensures |r| == |items|
  {
    seq(|items|, i requires 0 <= i < |items| => match items[i] case Some(j) => j case None => JNull)
  }

  /** Objects drop the properties that have no JSON form. */
  function Present(keys: seq<string>, values: seq<Option<JsonValue>>): (r: (seq<string>, seq<JsonValue>))
    requires |keys| == |values|
    ensures |r.0| == |r.1|
  {
    if keys == [] then ([], [])
    else
      var n := |keys| - 1;
      var (ks, vs) := Present(keys[..n], values[..n]);
      if values[n].Some? then (ks + [keys[n]], vs + [values[n].value]) else (ks, vs)
  }

  lemma {:induction false} SanitizeKidsIff(h: Heap, r: Ref, n: nat, ancestors: set<Ref>, digits: int -> string)
    requires WellFormed(h) && r in h && r !in ancestors && n <= |Kids(h[r])|
    ensures var c := SanitizeKids(h, r, n, ancestors, digits);
            && (c.Ok? <==> forall k :: 0 <= k < n ==> Sanitize(h, Kids(h[r])[k].0, ancestors + {r}, digits).Ok?)
            && (c.Ok? ==> forall k :: 0 <= k < n ==>
                  Sanitize(h, Kids(h[r])[k].0, ancestors + {r}, digits) == Ok(c.value[k]))
  {
    if n > 0 { SanitizeKidsIff(h, r, n - 1, ancestors, digits); }
  }

  lemma {:induction false} PresentOfAll(keys: seq<string>, values: seq<Option<JsonValue>>, all: seq<JsonValue>)
    requires |keys| == |values| == |all| && forall k :: 0 <= k < |all| ==> values[k] == Some(all[k])
    ensures Present(keys, values) == (keys, all)
  {
    if keys != [] {
      var n := |keys| - 1;
      PresentOfAll(keys[..n], values[..n], all[..n]);
      assert keys == keys[..n] + [keys[n]] && all == all[..n] + [all[n]];
    }
  }

  /** Sanitizing agrees with the strict conversion wherever that succeeds. */
  lemma {:induction false} SanitizeExtendsCopy(h: Heap, v: Value, ancestors: set<Ref>, digits: int -> string)
    requires WellFormed(h) && InHeap(h, v) && Copy(h, v, ancestors).Ok?
    ensures Sanitize(h, v, ancestors, digits) == Ok(Some(Copy(h, v, ancestors).value))
    decreases h.Keys - ancestors
  {
    if !v.Object? { return; }
    var r := v.ref;
    var kids := Kids(h[r]);
    CopyKidsIff(h, r, |kids|, ancestors);
    SanitizeKidsIff(h, r, |kids|, ancestors, digits);
    var copies := CopyKids(h, r, |kids|, ancestors).value;
    forall k | 0 <= k < |kids|
      ensures Sanitize(h, kids[k].0, ancestors + {r}, digits) == Ok(Some(copies[k]))
    {
      SanitizeExtendsCopy(h, kids[k].0, ancestors + {r}, digits);
    }
    var sanitized := SanitizeKids(h, r, |kids|, ancestors, digits).value;
    if h[r].Array? {
      assert NullForMissing(sanitized) == copies;
    } else {
      PresentOfAll(Keys(h[r].entries), sanitized, copies);
    }
  }

  /** What has no JSON form. */
  predicate Missing(v: Value) { v.Undefined? || v.Callable? || v.Symbol? }

  /** The properties that have one, in order. */
  function Kept(entries: seq<(string, Value)>): seq<(string, Value)> {
    if entries == [] then []
    else
      var n := |entries| - 1;
      Kept(entries[..n]) + if Missing(entries[n].1) then [] else [entries[n]]
  }

  lemma {:induction false} KeptInHeap(h: Heap, entries: seq<(string, Value)>)
    requires forall k :: 0 <= k < |entries| ==> InHeap(h, entries[k].1)
    ensures forall k :: 0 <= k < |Kept(entries)| ==> InHeap(h, Kept(entries)[k].1)
  {
    if entries != [] {
      KeptInHeap(h, entries[..|entries| - 1]);
    }
  }

  lemma RecordInHeap(h: Heap, r: Ref)
    requires WellFormed(h) && r in h && h[r].Record?
    ensures forall k :: 0 <= k < |h[r].entries| ==> InHeap(h, h[r].entries[k].1)
  {
    forall k | 0 <= k < |h[r].entries|
      ensures InHeap(h, h[r].entries[k].1)
    {
      assert Kids(h[r])[k].0 == h[r].entries[k].1;
    }
  }

  /** The tree stands for a value met below `ancestors`: numbers without JSON form and big integers as text, a date as its
      ISO text, an ancestor met again as a notice, an array with null for what has no JSON form, and an object without
      its properties that have none. */
  ghost predicate Stands(j: JsonValue, h: Heap, v: Value, ancestors: set<Ref>, digits: int -> string)
    requires WellFormed(h) && InHeap(h, v)
    decreases h.Keys - ancestors
  {
    match v
    case Null => j == JNull
    case Boolean(b) => j == JBoolean(b)
    case Text(s) => j == JText(s)
    case Num(n) => j == if n.Finite? then JNumber(n.value) else JText(n.text)
    case BigInt(i) => j == JText(digits(i))
    case Undefined | Callable | Symbol => false
    case Object(r) =>
      if h[r].Date? then h[r].iso.Some? && j == JText(h[r].iso.value)
      else if r in ancestors then j == JText("[Circular]")
      else if h[r].Array? then
        && j.JArray? && |j.items| == |Kids(h[r])|
        && forall k :: 0 <= k < |j.items| ==>
             var kid := Kids(h[r])[k].0;
             if Missing(kid) then j.items[k] == JNull else Stands(j.items[k], h, kid, ancestors + {r}, digits)
      else
        RecordInHeap(h, r);
        KeptInHeap(h, h[r].entries);
        var kept := Kept(h[r].entries);
        && j.JObject? && j.prototype.None? && |j.entries| == |kept|
        && forall k :: 0 <= k < |kept| ==>
             j.entries[k].0 == kept[k].0 && Stands(j.entries[k].1, h, kept[k].1, ancestors + {r}, digits)
  }

  /** Where no property is named `__proto__`, the sanitized value stands for the value, and there is none only for what
      has no JSON form. */
  lemma {:induction false} SanitizedStands(h: Heap, v: Value, ancestors: set<Ref>, digits: int -> string)
    requires WellFormed(h) && InHeap(h, v) && NoProtoKeys(h, v) && Sanitize(h, v, ancestors, digits).Ok?
    ensures var r := Sanitize(h, v, ancestors, digits).value;
            (r.None? <==> Missing(v)) && (r.Some? ==> Stands(r.value, h, v, ancestors, digits))
    decreases h.Keys - ancestors
  {
    if !v.Object? || h[v.ref].Date? || v.ref in ancestors { return; }
    var r := v.ref;
    var kids := Kids(h[r]);
    SanitizeKidsIff(h, r, |kids|, ancestors, digits);
    NoProtoKeysBelow(h, r);
    var values := SanitizeKids(h, r, |kids|, ancestors, digits).value;
    forall k | 0 <= k < |kids|
      ensures StandsFor(values[k], h, kids[k].0, ancestors + {r}, digits)
    {
      SanitizedStands(h, kids[k].0, ancestors + {r}, digits);
    }
    if h[r].Record? {
      RecordStands(h, r, values, ancestors, digits);
    }
  }

  ghost predicate StandsFor(j: Option<JsonValue>, h: Heap, v: Value, ancestors: set<Ref>, digits: int -> string)
    requires WellFormed(h) && InHeap(h, v)
  {
    (j.None? <==> Missing(v)) && (j.Some? ==> Stands(j.value, h, v, ancestors, digits))
  }

  lemma RecordStands(h: Heap, r: Ref, values: seq<Option<JsonValue>>, ancestors: set<Ref>, digits: int -> string)
    requires WellFormed(h) && r in h && r !in ancestors && h[r].Record? && !HasProtoKey(h[r]) && |values| == |Kids(h[r])|
    requires forall k :: 0 <= k < |values| ==> StandsFor(values[k], h, Kids(h[r])[k].0, ancestors + {r}, digits)
    ensures var (keys, present) := Present(Keys(h[r].entries), values);
            var (entries, prototype) := AssignAll(keys, present);
            Stands(JObject(entries, prototype), h, Object(r), ancestors, digits)
  {
    var all := h[r].entries;
    RecordInHeap(h, r);
    KeptInHeap(h, all);
    forall k | 0 <= k < |all|
      ensures StandsFor(values[k], h, all[k].1, ancestors + {r}, digits)
    {
      assert Kids(h[r])[k].0 == all[k].1;
    }
    PresentAreKept(h, all, values, ancestors + {r}, digits);
    var (keys, present) := Present(Keys(all), values);
    AssignAllKeeps(keys, present);
    if PROTO in keys {
      var k :| 0 <= k < |keys| && keys[k] == PROTO;
      KeptAreEntries(all, k);
    }
  }

  lemma {:induction false} KeptAreEntries(entries: seq<(string, Value)>, k: nat)
    requires k < |Kept(entries)|
    ensures exists i :: 0 <= i < |entries| && entries[i] == Kept(entries)[k]
  {
    var n := |entries| - 1;
    if k < |Kept(entries[..n])| {
      KeptAreEntries(entries[..n], k);
      var i :| 0 <= i < n && entries[..n][i] == Kept(entries[..n])[k];
      assert entries[i] == Kept(entries)[k];
    }
  }

  lemma {:induction false} PresentAreKept(h: Heap, entries: seq<(string, Value)>, values: seq<Option<JsonValue>>,
                                          ancestors: set<Ref>, digits: int -> string)
    requires WellFormed(h) && |values| == |entries| && forall k :: 0 <= k < |entries| ==> InHeap(h, entries[k].1)
    requires forall k :: 0 <= k < |entries| ==> StandsFor(values[k], h, entries[k].1, ancestors, digits)
    ensures forall k :: 0 <= k < |Kept(entries)| ==> InHeap(h, Kept(entries)[k].1)
    ensures var (keys, present) := Present(Keys(entries), values);
            && |keys| == |Kept(entries)|
            && forall k :: 0 <= k < |keys| ==>
                 keys[k] == Kept(entries)[k].0 && Stands(present[k], h, Kept(entries)[k].1, ancestors, digits)
  {
    KeptInHeap(h, entries);
    if entries != [] {
      var n := |entries| - 1;
      PresentAreKept(h, entries[..n], values[..n], ancestors, digits);
      assert Keys(entries)[..n] == Keys(entries[..n]);
      assert StandsFor(values[n], h, entries[n].1, ancestors, digits);
    }
  }

  /** A walk without repetition from an object to an invalid date. */
  ghost predicate LeadsToInvalidDate(h: Heap, path: seq<Ref>, from: Ref, avoid: set<Ref>) {
    && IsPath(h, path) && path[0] == from && Distinct(path)
    && (forall i :: 0 <= i < |path| - 1 ==> path[i] !in avoid)
    && h[path[|path| - 1]] == Date(None)
  }

  /** Sanitizing terminates on every graph, and throws exactly when an invalid date can be reached. */
  lemma {:induction false} SanitizeThrowsIff(h: Heap, v: Value, ancestors: set<Ref>, digits: int -> string)
    requires WellFormed(h) && InHeap(h, v) && forall a :: a in ancestors && a in h ==> !h[a].Date?
    ensures Sanitize(h, v, ancestors, digits).Err?
            <==> v.Object? && exists path :: LeadsToInvalidDate(h, path, v.ref, ancestors)
    decreases h.Keys - ancestors
  {
    if !v.Object? { return; }
    var r := v.ref;
    if h[r].Date? {
      DateThrows(h, r, ancestors);
      return;
    }
    if r in ancestors {
      AncestorIsCut(h, r, ancestors);
      return;
    }
    var kids := Kids(h[r]);
    SanitizeKidsIff(h, r, |kids|, ancestors, digits);
    forall k | 0 <= k < |kids|
      ensures Sanitize(h, kids[k].0, ancestors + {r}, digits).Err?
              <==> kids[k].0.Object? && exists path :: LeadsToInvalidDate(h, path, kids[k].0.ref, ancestors + {r})
    {
      SanitizeThrowsIff(h, kids[k].0, ancestors + {r}, digits);
    }
    InvalidDateBelow(h, r, ancestors);
  }

  /** A record whose only property is an invalid date: sanitizing it throws, where the conversion is meant to be
      lossy and never to affect execution. */
  lemma InvalidDateThrows(digits: int -> string)
    ensures var h: Heap := map[0 := Record(ObjectPrototype, [("at", Object(1))]), 1 := Date(None)];
            WellFormed(h) && Sanitize(h, Object(0), {}, digits).Err?
  {
    var h: Heap := map[0 := Record(ObjectPrototype, [("at", Object(1))]), 1 := Date(None)];
    var path: seq<Ref> := [0, 1];
    assert Kids(h[0])[0].0 == Object(1);
    assert Reaches(h[0], 1);
    assert LeadsToInvalidDate(h, path, 0, {});
    SanitizeThrowsIff(h, Object(0), {}, digits);
  }

  /** A date is invalid itself or leads nowhere. */
  lemma DateThrows(h: Heap, r: Ref, ancestors: set<Ref>)
    requires WellFormed(h) && r in h && h[r].Date?
    ensures (exists path :: LeadsToInvalidDate(h, path, r, ancestors)) <==> h[r].iso.None?
  {
    if h[r].iso.None? {
      assert LeadsToInvalidDate(h, [r], r, ancestors);
    }
    forall path | LeadsToInvalidDate(h, path, r, ancestors)
      ensures h[r].iso.None?
    {
      if |path| > 1 { PathTail(h, path); }
    }
  }

  lemma AncestorIsCut(h: Heap, r: Ref, ancestors: set<Ref>)
    requires r in h && r in ancestors && !h[r].Date?
    ensures !exists path :: LeadsToInvalidDate(h, path, r, ancestors)
  {
  }

  lemma InvalidDateBelow(h: Heap, r: Ref, ancestors: set<Ref>)
    requires WellFormed(h) && r in h && r !in ancestors && !h[r].Date?
    ensures (exists path :: LeadsToInvalidDate(h, path, r, ancestors))
            <==> exists k, path :: && 0 <= k < |Kids(h[r])| && Kids(h[r])[k].0.Object?
                                   && LeadsToInvalidDate(h, path, Kids(h[r])[k].0.ref, ancestors + {r})
  {
    var kids := Kids(h[r]);
    forall path | LeadsToInvalidDate(h, path, r, ancestors)
      ensures exists k, tail :: && 0 <= k < |kids| && kids[k].0.Object?
                                && LeadsToInvalidDate(h, tail, kids[k].0.ref, ancestors + {r})
    {
      var k := InvalidDateFromKid(h, r, ancestors, path);
      assert LeadsToInvalidDate(h, path[1..], kids[k].0.ref, ancestors + {r});
    }
    if k, path :| && 0 <= k < |kids| && kids[k].0.Object?
                  && LeadsToInvalidDate(h, path, kids[k].0.ref, ancestors + {r}) {
      InvalidDateThroughKid(h, r, ancestors, k, path);
    }
  }

  /** A walk to an invalid date goes on from one of the object's own values. */
  lemma InvalidDateFromKid(h: Heap, r: Ref, ancestors: set<Ref>, path: seq<Ref>) returns (k: nat)
    requires r in h && !h[r].Date? && LeadsToInvalidDate(h, path, r, ancestors)
    ensures k < |Kids(h[r])| && Kids(h[r])[k].0.Object? && |path| > 1
    ensures LeadsToInvalidDate(h, path[1..], Kids(h[r])[k].0.ref, ancestors + {r})
  {
    PathTail(h, path);
    TailAvoids(path, ancestors);
    k :| k < |Kids(h[r])| && Kids(h[r])[k].0 == Object(path[1]);
    assert path[1..][|path| - 2] == path[|path| - 1];
  }

  lemma TailAvoids(path: seq<Ref>, avoid: set<Ref>)
    requires Distinct(path) && path != [] && forall i :: 0 <= i < |path| - 1 ==> path[i] !in avoid
    ensures Distinct(path[1..]) && forall i :: 0 <= i < |path| - 2 ==> path[1..][i] !in avoid + {path[0]}
  {
    DistinctTail(path);
    forall i | 0 <= i < |path| - 2
      ensures path[1..][i] !in avoid + {path[0]}
    {
      assert path[1..][i] == path[i + 1];
    }
  }

  lemma DistinctTail(path: seq<Ref>)
    requires Distinct(path) && path != []
    ensures Distinct(path[1..]) && forall i :: 1 <= i < |path| ==> path[i] != path[0]
  {
    assert forall i :: 0 <= i < |path| - 1 ==> path[1..][i] == path[i + 1];
  }

  /** A walk from one of the object's values to an invalid date is one from the object. */
  lemma InvalidDateThroughKid(h: Heap, r: Ref, ancestors: set<Ref>, k: nat, path: seq<Ref>)
    requires r in h && r !in ancestors && !h[r].Date? && k < |Kids(h[r])| && Kids(h[r])[k].0.Object?
    requires LeadsToInvalidDate(h, path, Kids(h[r])[k].0.ref, ancestors + {r})
    ensures LeadsToInvalidDate(h, [r] + path, r, ancestors)
  {
    var q := [r] + path;
    PathCons(h, r, path);
    assert q[0] == r && forall i :: 0 <= i < |path| ==> q[i + 1] == path[i];
    assert path[|path| - 1] != r;
    assert forall i :: 0 <= i < |path| - 1 ==> path[i] != r;
    DistinctCons(r, path);
    forall i | 0 <= i < |q| - 1
      ensures q[i] !in ancestors
    {
      if i > 0 {
        assert q[i] == path[i - 1];
      }
    }
  }

  lemma DistinctCons(r: Ref, path: seq<Ref>)
    requires Distinct(path) && forall i :: 0 <= i < |path| ==> path[i] != r
    ensures Distinct([r] + path)
  {
    var q := [r] + path;
    assert forall i :: 0 <= i < |path| ==> q[i + 1] == path[i];
  }

  /** The lossy conversion, with cyclic references cut and its set restored even when a date throws. */
  method SanitizeProtocolDetails(h: Heap, v: Value, seen: ObjectSet, digits: int -> string)
    returns (r: Result<Option<JsonValue>, ()>)
    requires WellFormed(h) && InHeap(h, v)
    modifies seen
    ensures seen.members == old(seen.members)
    ensures r == Sanitize(h, v, old(seen.members), digits)
    decreases h.Keys - seen.members, 0
  {
    match v
    case Null => r := Ok(Some(JNull));
    case Boolean(b) => r := Ok(Some(JBoolean(b)));
    case Text(s) => r := Ok(Some(JText(s)));
    case Num(n) => r := Ok(Some(if n.Finite? then JNumber(n.value) else JText(n.text)));
    case BigInt(i) => r := Ok(Some(JText(digits(i))));
    case Undefined | Callable | Symbol => r := Ok(None);
    case Object(ref) =>
      if h[ref].Date? {
        r := if h[ref].iso.Some? then Ok(Some(JText(h[ref].iso.value))) else Err(());
        return;
      }
      if ref in seen.members {
        return Ok(Some(CIRCULAR));
      }
      ghost var before := seen.members;
      seen.members := seen.members + {ref};
      var kids := SanitizeEveryKid(h, ref, before, seen, digits);
      seen.members := seen.members - {ref};
      assert seen.members == before;
      if kids.Err? {
        r := Err(());
      } else if h[ref].Array? {
        r := Ok(Some(JArray(NullForMissing(kids.value))));
      } else {
        var (keys, values) := Present(Keys(h[ref].entries), kids.value);
        var (entries, prototype) := AssignAll(keys, values);
        r := Ok(Some(JObject(entries, prototype)));
      }
  }

  method SanitizeEveryKid(h: Heap, ref: Ref, ghost before: set<Ref>, seen: ObjectSet, digits: int -> string)
    returns (r: Result<seq<Option<JsonValue>>, ()>)
    requires WellFormed(h) && ref in h && ref !in before && seen.members == before + {ref}
    modifies seen
    ensures seen.members == old(seen.members)
    ensures r == SanitizeKids(h, ref, |Kids(h[ref])|, before, digits)
    decreases h.Keys - seen.members, 1
  {
    var values: seq<Option<JsonValue>> := [];
    var kids := Kids(h[ref]);
    for i := 0 to |kids|
      invariant seen.members == before + {ref} && SanitizeKids(h, ref, i, before, digits) == Ok(values)
    {
      var value := SanitizeProtocolDetails(h, kids[i].0, seen, digits);
      if value.Err? {
        SanitizeKidsIff(h, ref, |kids|, before, digits);
        return Err(());
      }
      values := values + [value.value];
    }
    r := Ok(values);
  }
}
